/**
 A confirmation that nobody disturbs delivers its key, and what it does not read: from every state in which it
 would pass, another request can have the key revoked first, all under the row lock, and it passes none the less.
 */
module SagaConfirmations {
  import opened Authorization
  import opened SagaState
  import opened SagaSteps
  import opened SagaInvariant
  import opened SagaTheorems
  import opened SagaTracking
  import opened SagaTraps
  import opened SagaLosses
  import opened SagaFences
  import opened SagaDelivery
  import opened SagaIntrusions
  import opened SagaUnlocked

  // ---------- A confirmation that meets no trouble ----------

  function Gates(u: ThreadId, d: Delivery): seq<Action> {
    [Begin(u, ConfirmDeliverable(d)), Act(u, PassGate), Act(u, PassGate), Act(u, PassGate), Act(u, PassGate), Act(u, PassGate)]
  }

  /** The key is out, the row lock free, the ticket current and nothing pending. */
  ghost predicate Confirmable(w: World, u: ThreadId, d: Delivery) {
    && u !in w.threads && d.key in w.db.returned && d.key in w.db.info
    && var b := w.db.info[d.key].slot.binding;
       && LockFree(w.db, b) && w.db.creds[b] == Credential(d.versions.generation, true)
       && Clears(d.versions, FenceOf(w.db, b, d.consumer))
       && !HasPendingRow(w.db.rows, b) && !HasIntent(w.db, b)
  }

  /** Before the commit: all gates passed, nothing changed but the row lock. */
  function AtTheCommit(w: World, u: ThreadId, d: Delivery): World
    requires d.key in w.db.info
  {
    var b := w.db.info[d.key].slot.binding;
    World(w.db.(locks := w.db.locks[b := u]), w.threads[u := Confirming(d, b, NothingPending)])
  }

  lemma GatePassed(db: Db, others: map<ThreadId, Thread>, u: ThreadId, d: Delivery, b: Binding, g: Gate)
    requires g != NothingPending && Passes(db, Confirming(d, b, g))
    ensures Steps(World(db, others[u := Confirming(d, b, g)]), Act(u, PassGate),
                  World(db, others[u := Confirming(d, b, NextGate(g))]))
  {
    ActSteps(others, db, u, Confirming(d, b, g), PassGate, db, Confirming(d, b, NextGate(g)));
  }

  /** A confirmation nobody disturbs gets through to its commit. */
  lemma ConfirmationPasses(w: World, u: ThreadId, d: Delivery)
    requires Confirmable(w, u, d)
    ensures Reaches(w, Gates(u, d), AtTheCommit(w, u, d))
  {
    var b := w.db.info[d.key].slot.binding;
    var db, th := w.db.(locks := w.db.locks[b := u]), w.threads;
    GatePassed(db, th, u, d, b, RowLocked);
    GatePassed(db, th, u, d, b, GenerationMatched);
    GatePassed(db, th, u, d, b, FenceCleared);
    GatePassed(db, th, u, d, b, StatusActive);
    assert !HasIntent(db, b);
    GatePassed(db, th, u, d, b, NoRowPending);
    ThreeSteps(w, Gates(u, d)[0], World(db, th[u := Confirming(d, b, RowLocked)]),
               Gates(u, d)[1], World(db, th[u := Confirming(d, b, GenerationMatched)]),
               Gates(u, d)[2], World(db, th[u := Confirming(d, b, FenceCleared)]));
    ThreeSteps(World(db, th[u := Confirming(d, b, FenceCleared)]), Gates(u, d)[3], World(db, th[u := Confirming(d, b, StatusActive)]),
               Gates(u, d)[4], World(db, th[u := Confirming(d, b, NoRowPending)]),
               Gates(u, d)[5], World(db, th[u := Confirming(d, b, NothingPending)]));
    Join2(w, [Gates(u, d)[0], Gates(u, d)[1], Gates(u, d)[2]], World(db, th[u := Confirming(d, b, FenceCleared)]),
          [Gates(u, d)[3], Gates(u, d)[4], Gates(u, d)[5]], AtTheCommit(w, u, d));
    assert [Gates(u, d)[0], Gates(u, d)[1], Gates(u, d)[2]] + [Gates(u, d)[3], Gates(u, d)[4], Gates(u, d)[5]] == Gates(u, d);
  }

  // ---------- Delivered dead ----------

  ghost predicate AllKeepLock(actions: seq<Action>) {
    forall i :: 0 <= i < |actions| ==> KeepsEveryLock(actions[i])
  }

  lemma KeepLockThen(xs: seq<Action>, ys: seq<Action>)
    requires AllKeepLock(xs) && AllKeepLock(ys)
    ensures AllKeepLock(xs + ys)
  {
  }

  /** A run under the row lock leads to the commit by which thread u delivers the key, and the key is revoked. */
  ghost predicate CanDeliverDead(w: World, u: ThreadId, d: Delivery) {
    exists rest :: Runs(w, rest) && AllKeepLock(rest)
      && Delivers(Final(w, rest), Act(u, Commit(Done)), d) && d.key in Final(w, rest).db.acked
  }

  lemma DeliversDeadByStep(w: World, a: Action, w': World, u: ThreadId, d: Delivery)
    requires Steps(w, a, w') && KeepsEveryLock(a) && CanDeliverDead(w', u, d)
    ensures CanDeliverDead(w, u, d)
  {
    var rest :| Runs(w', rest) && AllKeepLock(rest)
      && Delivers(Final(w', rest), Act(u, Commit(Done)), d) && d.key in Final(w', rest).db.acked;
    assert ([a] + rest)[1..] == rest;
    KeepLockThen([a], rest);
    assert Runs(w, [a] + rest) && Final(w, [a] + rest) == Final(w', rest);
  }

  /** Once it is revoked, the confirmation passes as before. */
  lemma DeadKeyPasses(w: World, u: ThreadId, d: Delivery)
    requires Confirmable(w, u, d) && d.key in w.db.acked
    ensures CanDeliverDead(w, u, d)
  {
    ConfirmationPasses(w, u, d);
    assert AllKeepLock(Gates(u, d));
  }

  // ---------- The run of a fence for another consumer ----------

  function FenceCause(b: Binding, c: Consumer, f: Fence): Cause {
    Cause(b, true, Control(ApplyFence(c, f)))
  }

  /** The intents of the binding are those of the jobs from index `from` on. */
  ghost predicate OnlyJobs(db: Db, b: Binding, jobs: seq<Job>, from: nat) {
    forall k :: k in db.intents && k in db.info && db.info[k].slot.binding == b ==>
      exists i :: from <= i < |jobs| && jobs[i].key == k && jobs[i].id == db.intents[k].id
  }

  ghost predicate HasJob(jobs: seq<Job>, key: Key) {
    exists i :: 0 <= i < |jobs| && jobs[i].key == key
  }

  /** While thread t applies the fence, the ticket of the delivery stays current. */
  ghost predicate Fencing(w: World, t: ThreadId, u: ThreadId, d: Delivery, b: Binding) {
    && Inv(w) && t in w.threads && t != u && u !in w.threads
    && d.key in w.db.returned && d.key in w.db.info && w.db.info[d.key].slot.binding == b && !Expired(w.db, d.key)
    && b in w.db.creds && w.db.creds[b] == Credential(d.versions.generation, true)
    && Clears(d.versions, FenceOf(w.db, b, d.consumer))
  }

  lemma StillFencing(w: World, t: ThreadId, u: ThreadId, d: Delivery, b: Binding, m: Move, db': Db, next: Thread)
    requires Fencing(w, t, u, d, b) && Can(w.db, t, w.threads[t], m) && MoveIn(w.db, t, w.threads[t], m) == After(db', Some(next))
    requires db'.now == w.db.now && db'.creds == w.db.creds && db'.fences == w.db.fences
    ensures Steps(w, Act(t, m), World(db', w.threads[t := next])) && Fencing(World(db', w.threads[t := next]), t, u, d, b)
  {
    StepKeepsInv(w, Act(t, m));
    assert KeyStep(w.db, db', t, d.key);
  }

  function Fenced(db: Db, b: Binding, c: Consumer, f: Fence): Db {
    db.(fences := db.fences[(b, c) := Join(FenceOf(db, b, c), f)], locks := db.locks - {b})
  }

  lemma FenceConcludes(db: Db, b: Binding, c: Consumer, f: Fence)
    requires b in db.creds
    ensures ConcludeIn(db, Concluding(FenceCause(b, c, f), Success), Done) == After(Fenced(db, b, c, f), None)
  {
  }

  lemma FencePassesBy(w: World, t: ThreadId, u: ThreadId, d: Delivery, c: Consumer, f: Fence, b: Binding)
    requires Fencing(w, t, u, d, b) && c != d.consumer && w.threads[t] == Concluding(FenceCause(b, c, f), Success)
    requires !HasIntent(w.db, b)
    ensures Confirmable(World(Fenced(w.db, b, c, f), w.threads - {t}), u, d)
  {
    assert Holds(w.db, t, w.threads[t]);
    NoIntentStill(w.db, Fenced(w.db, b, c, f), b);
    assert FenceOf(Fenced(w.db, b, c, f), b, d.consumer) == FenceOf(w.db, b, d.consumer);
  }

  /** The fence commits, and the ticket of the other consumer is still current. */
  lemma CommitSteps(w: World, t: ThreadId, u: ThreadId, d: Delivery, c: Consumer, f: Fence, b: Binding) returns (w': World)
    requires Fencing(w, t, u, d, b) && c != d.consumer && w.threads[t] == Concluding(FenceCause(b, c, f), Success)
    requires d.key in w.db.acked && !HasIntent(w.db, b)
    ensures Steps(w, Act(t, Commit(Done)), w') && Confirmable(w', u, d) && d.key in w'.db.acked
  {
    w' := World(Fenced(w.db, b, c, f), w.threads - {t});
    FenceConcludes(w.db, b, c, f);
    FencePassesBy(w, t, u, d, c, f, b);
  }

  /** All is revoked: the fence commits, and the confirmation passes. */
  lemma FenceCommitted(w: World, t: ThreadId, u: ThreadId, d: Delivery, c: Consumer, f: Fence, b: Binding)
    requires Fencing(w, t, u, d, b) && c != d.consumer && w.threads[t] == Concluding(FenceCause(b, c, f), Success)
    requires d.key in w.db.acked && !HasIntent(w.db, b)
    ensures CanDeliverDead(w, u, d)
  {
    var w' := CommitSteps(w, t, u, d, c, f, b);
    DeadKeyPasses(w', u, d);
    DeliversDeadByStep(w, Act(t, Commit(Done)), w', u, d);
  }

  lemma NoIntentStill(db: Db, db': Db, b: Binding)
    requires !HasIntent(db, b) && db'.intents == db.intents && db'.info == db.info
    ensures !HasIntent(db', b)
  {
  }

  lemma DeleteSteps(w: World, t: ThreadId, u: ThreadId, d: Delivery, cause: Cause, b: Binding, jobs: seq<Job>) returns (w': World)
    requires Fencing(w, t, u, d, b) && cause.binding == b && w.threads[t] == Deleting(cause, jobs)
    ensures Steps(w, Act(t, DeleteRows(Done)), w') && Fencing(w', t, u, d, b) && w'.threads[t] == Concluding(cause, Success)
    ensures w'.db == w.db.(rows := w'.db.rows)
  {
    w' := World(w.db.(rows := DropBinding(w.db.rows, b)), w.threads[t := Concluding(cause, Success)]);
    StillFencing(w, t, u, d, b, DeleteRows(Done), w'.db, Concluding(cause, Success));
  }

  lemma RowsDeleted(w: World, t: ThreadId, u: ThreadId, d: Delivery, c: Consumer, f: Fence, b: Binding, jobs: seq<Job>)
    requires Fencing(w, t, u, d, b) && c != d.consumer && w.threads[t] == Deleting(FenceCause(b, c, f), jobs)
    requires d.key in w.db.acked && !HasIntent(w.db, b)
    ensures CanDeliverDead(w, u, d)
  {
    var w' := DeleteSteps(w, t, u, d, FenceCause(b, c, f), b, jobs);
    NoIntentStill(w.db, w'.db, b);
    FenceCommitted(w', t, u, d, c, f, b);
    DeliversDeadByStep(w, Act(t, DeleteRows(Done)), w', u, d);
  }

  function Rank(stage: Stage): nat {
    match stage
    case MarkStage => 3
    case CallStage => 2
    case RowStage => 1
    case IntentStage => 0
  }

  /** One statement of the revocation of a job leaves the intents of the later jobs, and after the last only those. */
  lemma RevokeLeaves(db: Db, b: Binding, jobs: seq<Job>, index: nat, stage: Stage)
    requires index < |jobs| && OnlyJobs(db, b, jobs, index)
    ensures OnlyJobs(RevokeIn(db, jobs[index].(stage := stage), Done, false), b, jobs, if stage == IntentStage then index + 1 else index)
  {
    var db' := RevokeIn(db, jobs[index].(stage := stage), Done, false);
    forall k | k in db'.intents && k in db'.info && db'.info[k].slot.binding == b
      ensures exists i :: (if stage == IntentStage then index + 1 else index) <= i < |jobs| && jobs[i].key == k && jobs[i].id == db'.intents[k].id
    {
      var i :| index <= i < |jobs| && jobs[i].key == k && jobs[i].id == db.intents[k].id;
      assert db'.intents[k].id == db.intents[k].id;
    }
  }

  /** The world after one statement of the revocation of jobs[index]. */
  function AfterRevoke(w: World, t: ThreadId, cause: Cause, jobs: seq<Job>, index: nat, stage: Stage): World
    requires index < |jobs|
  {
    World(RevokeIn(w.db, jobs[index].(stage := stage), Done, false),
          w.threads[t := if stage != IntentStage then Revoking(cause, jobs, index, NextStage(stage), true)
                         else NextJob(cause, jobs, index + 1, true)])
  }

  lemma RevokeSteps(w: World, t: ThreadId, u: ThreadId, d: Delivery, cause: Cause, b: Binding, jobs: seq<Job>, index: nat, stage: Stage)
    requires Fencing(w, t, u, d, b) && index < |jobs| && w.threads[t] == Revoking(cause, jobs, index, stage, true)
    ensures Steps(w, Act(t, Revoke(Done)), AfterRevoke(w, t, cause, jobs, index, stage))
    ensures Fencing(AfterRevoke(w, t, cause, jobs, index, stage), t, u, d, b)
  {
    var w' := AfterRevoke(w, t, cause, jobs, index, stage);
    StillFencing(w, t, u, d, b, Move.Revoke(Done), w'.db, w'.threads[t]);
  }

  /** The fence is at this stage of job `index`, and only the later jobs still have intents. */
  ghost predicate AtJob(w: World, t: ThreadId, u: ThreadId, d: Delivery, cause: Cause, b: Binding, jobs: seq<Job>, index: nat, stage: Stage) {
    && Fencing(w, t, u, d, b) && index < |jobs| && w.threads[t] == Revoking(cause, jobs, index, stage, true)
    && OnlyJobs(w.db, b, jobs, index)
  }

  lemma NextStageAtJob(w: World, t: ThreadId, u: ThreadId, d: Delivery, cause: Cause, b: Binding, jobs: seq<Job>, index: nat, stage: Stage)
    requires AtJob(w, t, u, d, cause, b, jobs, index, stage) && stage != IntentStage
    ensures AtJob(AfterRevoke(w, t, cause, jobs, index, stage), t, u, d, cause, b, jobs, index, NextStage(stage))
  {
    RevokeSteps(w, t, u, d, cause, b, jobs, index, stage);
    RevokeLeaves(w.db, b, jobs, index, stage);
  }

  lemma NextJobAt(w: World, t: ThreadId, u: ThreadId, d: Delivery, cause: Cause, b: Binding, jobs: seq<Job>, index: nat)
    requires AtJob(w, t, u, d, cause, b, jobs, index, IntentStage) && index + 1 < |jobs|
    ensures AtJob(AfterRevoke(w, t, cause, jobs, index, IntentStage), t, u, d, cause, b, jobs, index + 1, MarkStage)
  {
    RevokeSteps(w, t, u, d, cause, b, jobs, index, IntentStage);
    RevokeLeaves(w.db, b, jobs, index, IntentStage);
  }

  lemma RevokeCanDeliver(w: World, t: ThreadId, u: ThreadId, d: Delivery, cause: Cause, b: Binding, jobs: seq<Job>, index: nat, stage: Stage)
    requires AtJob(w, t, u, d, cause, b, jobs, index, stage) && CanDeliverDead(AfterRevoke(w, t, cause, jobs, index, stage), u, d)
    ensures CanDeliverDead(w, u, d)
  {
    RevokeSteps(w, t, u, d, cause, b, jobs, index, stage);
    DeliversDeadByStep(w, Act(t, Revoke(Done)), AfterRevoke(w, t, cause, jobs, index, stage), u, d);
  }

  /** One statement on: the next stage of the job, or the next job, which come closer to the end. */
  lemma OneMoreStage(w: World, t: ThreadId, u: ThreadId, d: Delivery, cause: Cause, b: Binding, jobs: seq<Job>, index: nat, stage: Stage)
    returns (w': World, next: nat, to: Stage)
    requires AtJob(w, t, u, d, cause, b, jobs, index, stage) && (stage != IntentStage || index + 1 < |jobs|)
    ensures AtJob(w', t, u, d, cause, b, jobs, next, to) && w' == AfterRevoke(w, t, cause, jobs, index, stage)
    ensures next > index || (next == index && Rank(to) < Rank(stage))
  {
    w' := AfterRevoke(w, t, cause, jobs, index, stage);
    if stage != IntentStage {
      next, to := index, NextStage(stage);
      NextStageAtJob(w, t, u, d, cause, b, jobs, index, stage);
    } else {
      next, to := index + 1, MarkStage;
      NextJobAt(w, t, u, d, cause, b, jobs, index);
    }
  }

  lemma {:induction false} JobsRevoked(w: World, t: ThreadId, u: ThreadId, d: Delivery, c: Consumer, f: Fence, b: Binding,
                                       jobs: seq<Job>, index: nat, stage: Stage)
    requires AtJob(w, t, u, d, FenceCause(b, c, f), b, jobs, index, stage) && c != d.consumer && HasJob(jobs, d.key)
    ensures CanDeliverDead(w, u, d)
    decreases |jobs| - index, Rank(stage)
  {
    var cause := FenceCause(b, c, f);
    if stage == IntentStage && index + 1 == |jobs| { AllJobsRevoked(w, t, u, d, c, f, b, jobs, index); } else {
      var w', next, to := OneMoreStage(w, t, u, d, cause, b, jobs, index, stage);
      JobsRevoked(w', t, u, d, c, f, b, jobs, next, to);
    }
    RevokeCanDeliver(w, t, u, d, cause, b, jobs, index, stage);
  }

  lemma AllJobsRevoked(w: World, t: ThreadId, u: ThreadId, d: Delivery, c: Consumer, f: Fence, b: Binding, jobs: seq<Job>, index: nat)
    requires AtJob(w, t, u, d, FenceCause(b, c, f), b, jobs, index, IntentStage) && c != d.consumer && HasJob(jobs, d.key)
    requires index + 1 == |jobs|
    ensures CanDeliverDead(AfterRevoke(w, t, FenceCause(b, c, f), jobs, index, IntentStage), u, d)
  {
    RevokeSteps(w, t, u, d, FenceCause(b, c, f), b, jobs, index, IntentStage);
    RevokeLeaves(w.db, b, jobs, index, IntentStage);
    LastJobRevoked(AfterRevoke(w, t, FenceCause(b, c, f), jobs, index, IntentStage), t, u, d, c, f, b, jobs);
  }

  lemma LastJobRevoked(w: World, t: ThreadId, u: ThreadId, d: Delivery, c: Consumer, f: Fence, b: Binding, jobs: seq<Job>)
    requires Fencing(w, t, u, d, b) && c != d.consumer && w.threads[t] == Deleting(FenceCause(b, c, f), jobs)
    requires OnlyJobs(w.db, b, jobs, |jobs|) && HasJob(jobs, d.key)
    ensures CanDeliverDead(w, u, d)
  {
    assert Holds(w.db, t, w.threads[t]);
    RowsDeleted(w, t, u, d, c, f, b, jobs);
  }

  /** All keys are staged: the invalidation covers the row of the key. */
  lemma KeysStaged(w: World, t: ThreadId, u: ThreadId, d: Delivery, c: Consumer, f: Fence, b: Binding, jobs: seq<Job>)
    requires Fencing(w, t, u, d, b) && c != d.consumer && w.threads[t] == Marking(FenceCause(b, c, f), jobs)
    requires OnlyJobs(w.db, b, jobs, 0) && InRow(w.db, d.key)
    ensures CanDeliverDead(w, u, d)
  {
    assert Holds(w.db, t, w.threads[t]);
    var i :| 0 <= i < |jobs| && jobs[i].key == d.key;
    var db', next := w.db.(rows := RowsPending(w.db.rows, b)), Revoking(FenceCause(b, c, f), jobs, 0, MarkStage, true);
    StillFencing(w, t, u, d, b, MarkRows(Done), db', next);
    assert OnlyJobs(db', b, jobs, 0);
    JobsRevoked(World(db', w.threads[t := next]), t, u, d, c, f, b, jobs, 0, MarkStage);
    DeliversDeadByStep(w, Act(t, MarkRows(Done)), World(db', w.threads[t := next]), u, d);
  }

  lemma StageLeaves(db: Db, b: Binding, jobs: seq<Job>, key: Key, id: IntentId)
    requires OnlyJobs(db, b, jobs, 0)
    ensures OnlyJobs(StageIn(db, key, id, Ready), b, jobs + [Job(key, if key in db.intents then db.intents[key].id else id, MarkStage)], 0)
  {
    var all, db' := jobs + [Job(key, if key in db.intents then db.intents[key].id else id, MarkStage)], StageIn(db, key, id, Ready);
    forall k | k in db'.intents && k in db'.info && db'.info[k].slot.binding == b
      ensures exists i :: 0 <= i < |all| && all[i].key == k && all[i].id == db'.intents[k].id
    {
      if k == key { assert all[|jobs|].key == k && all[|jobs|].id == db'.intents[k].id; } else {
        var i :| 0 <= i < |jobs| && jobs[i].key == k && jobs[i].id == db.intents[k].id;
        assert all[i] == jobs[i];
      }
    }
  }

  lemma {:induction false} KeysListed(w: World, t: ThreadId, u: ThreadId, d: Delivery, c: Consumer, f: Fence, b: Binding,
                                      listed: seq<Key>, jobs: seq<Job>)
    requires Fencing(w, t, u, d, b) && c != d.consumer && |jobs| <= |listed|
    requires w.threads[t] == StagedAll(FenceCause(b, c, f), listed, jobs)
    requires OnlyJobs(w.db, b, jobs, 0) && InRow(w.db, d.key)
    ensures CanDeliverDead(w, u, d)
    decreases |listed| - |jobs|
  {
    if |jobs| == |listed| { KeysStaged(w, t, u, d, c, f, b, jobs); } else {
      var id := BiggerThanAll(w.db.idOf.Keys);
      var key := listed[|jobs|];
      var all := jobs + [Job(key, if key in w.db.intents then w.db.intents[key].id else id, MarkStage)];
      var db', next := StageIn(w.db, key, id, Ready), StagedAll(FenceCause(b, c, f), listed, all);
      StillFencing(w, t, u, d, b, Stage(id, Done), db', next);
      StageLeaves(w.db, b, jobs, key, id);
      KeysListed(World(db', w.threads[t := next]), t, u, d, c, f, b, listed, all);
      DeliversDeadByStep(w, Act(t, Stage(id, Done)), World(db', w.threads[t := next]), u, d);
    }
  }

  /** The keys of all rows of the binding. */
  lemma {:induction false} RowKeys(db: Db, b: Binding, slots: set<Slot>) returns (keys: seq<Key>)
    requires slots <= db.rows.Keys
    ensures forall i :: 0 <= i < |keys| ==> IsKeyOf(db, b, keys[i])
    ensures forall s :: s in slots && s.binding == b ==> db.rows[s].key in keys
    decreases |slots|
  {
    keys := [];
    if slots != {} {
      var s :| s in slots;
      var rest := RowKeys(db, b, slots - {s});
      keys := if s.binding == b then rest + [db.rows[s].key] else rest;
      assert forall r :: r in slots ==> r == s || r in slots - {s};
    }
  }

  lemma ListSteps(w: World, t: ThreadId, u: ThreadId, d: Delivery, cause: Cause, b: Binding) returns (keys: seq<Key>, w': World)
    requires Fencing(w, t, u, d, b) && cause.binding == b && w.threads[t] == Listing(cause)
    ensures Steps(w, Act(t, ListRows(keys)), w') && Fencing(w', t, u, d, b)
    ensures w' == World(w.db, w.threads[t := StagedAll(cause, keys, [])])
  {
    keys := RowKeys(w.db, b, w.db.rows.Keys);
    assert Lists(w.db, b, keys);
    w' := World(w.db, w.threads[t := StagedAll(cause, keys, [])]);
    StillFencing(w, t, u, d, b, ListRows(keys), w.db, StagedAll(cause, keys, []));
  }

  lemma FenceBegun(w: World, t: ThreadId, u: ThreadId, d: Delivery, c: Consumer, f: Fence, b: Binding)
    requires Fencing(w, t, u, d, b) && c != d.consumer && w.threads[t] == Listing(FenceCause(b, c, f))
    requires !HasIntent(w.db, b) && InRow(w.db, d.key)
    ensures CanDeliverDead(w, u, d)
  {
    var keys, w' := ListSteps(w, t, u, d, FenceCause(b, c, f), b);
    assert OnlyJobs(w'.db, b, [], 0);
    KeysListed(w', t, u, d, c, f, b, keys, []);
    DeliversDeadByStep(w, Act(t, ListRows(keys)), w', u, d);
  }

  /** A returned key with nothing pending is revoked already, or in its row. */
  lemma ReturnedIsDeadOrInRow(w: World, u: ThreadId, d: Delivery)
    requires Inv(w) && AllTracked(w) && Confirmable(w, u, d) && !Expired(w.db, d.key)
    ensures d.key in w.db.acked || InRow(w.db, d.key)
  {
    assert KeyTracked(w, d.key) && KeyOk(w.db, d.key);
  }

  lemma FenceBegins(w: World, t: ThreadId, u: ThreadId, d: Delivery, cause: Cause) returns (w': World)
    requires Inv(w) && Confirmable(w, u, d) && !Expired(w.db, d.key) && t !in w.threads && t != u
    requires cause.purpose.Control? && cause == Cause(w.db.info[d.key].slot.binding, true, cause.purpose)
    ensures Steps(w, Begin(t, ControlOperation(cause.binding, cause.purpose.effect)), w')
    ensures Fencing(w', t, u, d, cause.binding) && w'.threads[t] == Listing(cause)
    ensures !HasIntent(w'.db, cause.binding) && w'.db.rows == w.db.rows && w'.db.info == w.db.info
  {
    var a := Begin(t, ControlOperation(cause.binding, cause.purpose.effect));
    w' := Apply(w, a);
    StepKeepsInv(w, a);
    NoIntentStill(w.db, w'.db, cause.binding);
  }

  lemma FenceRuns(w: World, w': World, t: ThreadId, u: ThreadId, d: Delivery, c: Consumer, f: Fence, b: Binding)
    requires Steps(w, Begin(t, ControlOperation(b, ApplyFence(c, f))), w')
    requires Fencing(w', t, u, d, b) && c != d.consumer && w'.threads[t] == Listing(FenceCause(b, c, f))
    requires !HasIntent(w'.db, b) && InRow(w'.db, d.key)
    ensures CanDeliverDead(w, u, d)
  {
    FenceBegun(w', t, u, d, c, f, b);
    DeliversDeadByStep(w, Begin(t, ControlOperation(b, ApplyFence(c, f))), w', u, d);
  }

  /**
   From every state in which no key is lost and a confirmation would deliver a live key, a fence for any other
   consumer can have the key revoked first; the ticket clears the fences of its own consumer and nothing is
   pending any more, so the confirmation delivers the key dead, all under the row lock.
   */
  lemma AnyKeyCanBeDeliveredDead(w: World, u: ThreadId, d: Delivery, c: Consumer, f: Fence)
    requires Inv(w) && AllTracked(w) && Confirmable(w, u, d) && !Expired(w.db, d.key) && c != d.consumer
    ensures CanDeliverDead(w, u, d)
  {
    ReturnedIsDeadOrInRow(w, u, d);
    if d.key in w.db.acked { DeadKeyPasses(w, u, d); } else {
      var t := BiggerThanAll(w.threads.Keys + {u});
      assert t !in w.threads.Keys;
      var b := w.db.info[d.key].slot.binding;
      var w' := FenceBegins(w, t, u, d, FenceCause(b, c, f));
      FenceRuns(w, w', t, u, d, c, f, b);
    }
  }

  // ---------- Past the counts ----------

  ghost predicate InvalidationsKeepLock(actions: seq<Action>) {
    forall i :: 0 <= i < |actions| ==> KeepsItsLock(actions[i])
  }

  ghost predicate DeliversBesideIntent(w: World, u: ThreadId, d: Delivery) {
    Delivers(w, Act(u, Commit(Done)), d) && d.key in w.db.info && HasIntent(w.db, w.db.info[d.key].slot.binding)
  }

  /** A run in which invalidations keep the row lock leads to the delivery of the key with an intent of its binding pending. */
  ghost predicate CanDeliverPending(w: World, u: ThreadId, d: Delivery) {
    exists rest :: Runs(w, rest) && InvalidationsKeepLock(rest) && DeliversBesideIntent(Final(w, rest), u, d)
  }

  lemma LateStagingKeepsLock(u: ThreadId, d: Delivery, t: ThreadId, id: IntentId)
    ensures InvalidationsKeepLock(Gates(u, d) + [Act(t, StageAlone(id, Done))])
  {
    assert InvalidationsKeepLock(Gates(u, d));
  }

  /** The world after the late staging. */
  function StagedBeside(w: World, u: ThreadId, d: Delivery, t: ThreadId, id: IntentId): World
    requires d.key in w.db.info && t in w.threads && w.threads[t].IssuedAlone?
  {
    var counted := AtTheCommit(w, u, d);
    var after := StageAloneIn(counted.db, w.threads[t].key, id, Done);
    World(after.db, counted.threads[t := after.thread.value])
  }

  lemma LateStagingSteps(w: World, u: ThreadId, d: Delivery, t: ThreadId, id: IntentId)
    requires Confirmable(w, u, d) && t in w.threads && w.threads[t].IssuedAlone? && id !in w.db.idOf
    ensures Steps(AtTheCommit(w, u, d), Act(t, StageAlone(id, Done)), StagedBeside(w, u, d, t, id))
  {
  }

  lemma LateStagingShows(w: World, u: ThreadId, d: Delivery, t: ThreadId, id: IntentId)
    requires Inv(w) && Confirmable(w, u, d) && t in w.threads && w.threads[t].IssuedAlone?
    requires w.threads[t].slot.binding == w.db.info[d.key].slot.binding
    ensures DeliversBesideIntent(StagedBeside(w, u, d, t, id), u, d)
  {
    assert Holds(w.db, t, w.threads[t]);
    LoneStageShows(AtTheCommit(w, u, d).db, w.threads[t].key, id, Done);
    StagedBesideFacts(w, u, d, t, id);
  }

  lemma StagedBesideFacts(w: World, u: ThreadId, d: Delivery, t: ThreadId, id: IntentId)
    requires u !in w.threads && d.key in w.db.info && t in w.threads && w.threads[t].IssuedAlone?
    ensures StagedBeside(w, u, d, t, id).db.info == w.db.info
    ensures Delivers(StagedBeside(w, u, d, t, id), Act(u, Commit(Done)), d)
  {
  }

  /**
   From every state with a confirmation that would pass and an issuer for the same binding that was cut off from
   its transaction: the issuer can store its intent after the counts, and the key is delivered all the same.
   */
  lemma CutOffIssuerSlipsPastTheCounts(w: World, u: ThreadId, d: Delivery, t: ThreadId)
    requires Inv(w) && Confirmable(w, u, d) && t in w.threads && w.threads[t].IssuedAlone?
    requires w.threads[t].slot.binding == w.db.info[d.key].slot.binding
    ensures CanDeliverPending(w, u, d)
  {
    var id := BiggerThanAll(w.db.idOf.Keys);
    ConfirmationPasses(w, u, d);
    LateStagingSteps(w, u, d, t, id);
    Then(w, Gates(u, d), AtTheCommit(w, u, d), Act(t, StageAlone(id, Done)), StagedBeside(w, u, d, t, id));
    LateStagingKeepsLock(u, d, t, id);
    LateStagingShows(w, u, d, t, id);
  }

}
