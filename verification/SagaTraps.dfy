/**
 The converse of fairness: after a statement that takes the row of an exposed key, the run can go on so
 that recovery revokes the key and GetAuthKey returns it all the same.
 */
module SagaTraps {
  import opened SagaState
  import opened SagaSteps
  import opened SagaInvariant
  import opened SagaTheorems
  import opened SagaFairness
  import opened SagaFairRuns

  // ---------- Every row lock has a live owner ----------

  ghost predicate LocksOwned(w: World) {
    forall b :: b in w.db.locks ==> w.db.locks[b] in w.threads && LockOf(w.threads[w.db.locks[b]]) == Some(b)
  }

  function LockAfter(next: Option<Thread>): Option<Binding> {
    if next.Some? then LockOf(next.value) else None
  }

  function Freed(locks: map<Binding, ThreadId>, lock: Option<Binding>): map<Binding, ThreadId> {
    if lock.Some? then locks - {lock.value} else locks
  }

  /** The move keeps the thread's lock together with the thread that believes in it, or gives both up. */
  ghost predicate LockFollows(db: Db, th: Thread, after: After) {
    || (after.db.locks == db.locks && LockAfter(after.thread) == LockOf(th))
    || (after.db.locks == Freed(db.locks, LockOf(th)) && LockAfter(after.thread) == None)
  }

  lemma EndedFrees(db: Db, th: Thread)
    ensures Ended(db, th).locks == Freed(db.locks, LockOf(th))
  {
  }

  lemma AttentionLock(db: Db, th: Thread, outcome: Outcome)
    requires th.Concluding? && th.cause.purpose == Attention
    ensures ConcludeIn(db, th, outcome).db.locks == Freed(db.locks, LockOf(th))
  {
    if th.cause.binding in db.creds {
      EndedFrees(db.(creds := db.creds[th.cause.binding := db.creds[th.cause.binding].(active := false)]), th);
    }
    EndedFrees(db, th);
  }

  lemma ControlLock(db: Db, th: Thread, outcome: Outcome)
    requires th.Concluding? && th.cause.purpose.Control?
    ensures ConcludeIn(db, th, outcome).db.locks == Freed(db.locks, LockOf(th))
  {
    if th.cause.binding in db.creds {
      var written := ApplyEffect(db, th.cause.binding, th.cause.purpose.effect);
      assert written.locks == db.locks;
      EndedFrees(written, th);
    }
    EndedFrees(db, th);
  }

  lemma ConcludeLock(db: Db, t: ThreadId, th: Thread, outcome: Outcome)
    requires Holds(db, t, th) && th.Concluding?
    ensures LockFollows(db, th, ConcludeIn(db, th, outcome))
  {
    match th.cause.purpose
    case Attention => AttentionLock(db, th, outcome);
    case Control(_) => ControlLock(db, th, outcome);
    case _ => EndedFrees(db, th);
  }

  lemma CommitLock(db: Db, t: ThreadId, th: Thread, outcome: Outcome)
    requires Holds(db, t, th) && Can(db, t, th, Commit(outcome))
    ensures LockFollows(db, th, CommitIn(db, th, outcome))
  {
    EndedFrees(db, th);
    if th.Concluding? { ConcludeLock(db, t, th, outcome); }
  }

  lemma CutOffLock(db: Db, t: ThreadId, th: Thread)
    requires Can(db, t, th, CutOff)
    ensures LockFollows(db, th, AloneIn(db, t, th, CutOff))
  {
    EndedFrees(db, th);
  }

  lemma LoseLock(db: Db, th: Thread)
    requires Invalidating(th)
    ensures LockFollows(db, th, After(Ended(db, th), Some(Unheld(th))))
  {
    EndedFrees(db, th);
  }

  lemma EndLock(db: Db, t: ThreadId, th: Thread, m: Move)
    requires Can(db, t, th, m) && Ends(m)
    ensures LockFollows(db, th, MoveIn(db, t, th, m))
  {
    match m
    case CutOff => CutOffLock(db, t, th);
    case LoseTransaction => LoseLock(db, th);
    case Abandon => EndedFrees(db, th);
    case RevokeUntracked(_) => EndedFrees(db, th);
    case Crash => EndedFrees(db, th);
  }

  lemma StageSameLocks(db: Db, th: Thread, id: IntentId, outcome: Outcome)
    requires th.Issued? || (th.Staging? && |th.jobs| < |th.listed|)
    ensures StageNext(db, th, id, outcome).db.locks == db.locks
    ensures LockAfter(StageNext(db, th, id, outcome).thread) == LockOf(th)
  {
  }

  lemma StageAloneSameLocks(db: Db, th: Thread, id: IntentId, outcome: Outcome)
    requires th.IssuedAlone?
    ensures StageAloneIn(db, th.key, id, outcome).db.locks == db.locks
    ensures LockAfter(StageAloneIn(db, th.key, id, outcome).thread) == LockOf(th)
  {
  }

  lemma RevokeSameLocks(db: Db, th: Thread, outcome: Outcome)
    requires th.Compensating? || th.RecoveringOne? || (th.Revoking? && th.index < |th.jobs|)
    ensures RevokeNext(db, th, outcome).db.locks == db.locks
  {
  }

  lemma ResolveSameLocks(db: Db, th: Thread, outcome: Outcome)
    requires th.Recovering? && |th.queue| > 0
    ensures ResolveIn(db, th, outcome).db.locks == db.locks
  {
  }

  lemma SameLocksOfIntentMoves(db: Db, t: ThreadId, th: Thread, m: Move)
    requires Can(db, t, th, m) && (m.Finalize? || m.Resolve? || m.Release?)
    ensures MoveIn(db, t, th, m).db.locks == db.locks
  {
    if m.Resolve? { ResolveSameLocks(db, th, m.outcome); }
  }

  lemma SameLocksOfStages(db: Db, t: ThreadId, th: Thread, m: Move)
    requires Can(db, t, th, m) && (m.Stage? || m.StageAlone? || m.Revoke?)
    ensures MoveIn(db, t, th, m).db.locks == db.locks
  {
    match m
    case Stage(id, outcome) => StageSameLocks(db, th, id, outcome);
    case StageAlone(id, outcome) => StageAloneSameLocks(db, th, id, outcome);
    case Revoke(outcome) => RevokeSameLocks(db, th, outcome);
  }

  /** The statements in the middle of a request touch no lock. */
  lemma SameLocks(db: Db, t: ThreadId, th: Thread, m: Move)
    requires Can(db, t, th, m)
    requires !Ends(m) && !m.Commit?
    ensures MoveIn(db, t, th, m).db.locks == db.locks
  {
    if m.Finalize? || m.Resolve? || m.Release? { SameLocksOfIntentMoves(db, t, th, m); }
    else if m.Stage? || m.StageAlone? || m.Revoke? { SameLocksOfStages(db, t, th, m); }
  }

  lemma RevokeSameLockOf(db: Db, th: Thread, outcome: Outcome)
    requires th.Compensating? || th.RecoveringOne? || (th.Revoking? && th.index < |th.jobs|)
    ensures LockAfter(RevokeNext(db, th, outcome).thread) == LockOf(th)
  {
  }

  lemma InvalidatorSameLockOf(db: Db, t: ThreadId, th: Thread, m: Move)
    requires Can(db, t, th, m) && (m.ListRows? || m.MarkRows? || m.DeleteRows? || m.InvalidateAgain?)
    ensures LockAfter(MoveIn(db, t, th, m).thread) == LockOf(th)
  {
  }

  lemma WorkerSameLockOf(db: Db, t: ThreadId, th: Thread, m: Move)
    requires Can(db, t, th, m) && (m.Resolve? || m.TakeReady? || m.Release? || m.Finish? || m.Finalize?)
    ensures LockAfter(MoveIn(db, t, th, m).thread) == LockOf(th)
  {
  }

  lemma IssuerSameLockOf(db: Db, t: ThreadId, th: Thread, m: Move)
    requires Can(db, t, th, m)
    requires m.FindInactive? || m.CountPendingRows? || m.CountIntents? || m.ReadArtifact? || m.UpstreamIssues?
      || m.UpstreamRejects? || m.WriteRow? || m.PassGate? || m.ListFails? || m.IssueAlone? || m.RevokeAlone?
    ensures LockAfter(MoveIn(db, t, th, m).thread) == LockOf(th)
  {
  }

  lemma SameLockOf(db: Db, t: ThreadId, th: Thread, m: Move)
    requires Holds(db, t, th) && Can(db, t, th, m)
    requires !Ends(m) && !m.Commit?
    ensures LockAfter(MoveIn(db, t, th, m).thread) == LockOf(th)
  {
    if m.Revoke? { RevokeSameLockOf(db, th, m.outcome); }
    else if m.ListRows? || m.MarkRows? || m.DeleteRows? || m.InvalidateAgain? { InvalidatorSameLockOf(db, t, th, m); }
    else if m.Resolve? || m.TakeReady? || m.Release? || m.Finish? || m.Finalize? { WorkerSameLockOf(db, t, th, m); }
    else if m.Stage? { StageSameLocks(db, th, m.id, m.outcome); }
    else if m.StageAlone? { StageAloneSameLocks(db, th, m.id, m.outcome); }
    else { IssuerSameLockOf(db, t, th, m); }
  }

  lemma MoveLock(db: Db, t: ThreadId, th: Thread, m: Move)
    requires Holds(db, t, th) && Can(db, t, th, m)
    ensures LockFollows(db, th, MoveIn(db, t, th, m))
  {
    if m.Commit? { CommitLock(db, t, th, m.outcome); }
    else if Ends(m) { EndLock(db, t, th, m); }
    else {
      SameLocks(db, t, th, m);
      SameLockOf(db, t, th, m);
    }
  }

  lemma FollowedLocks(w: World, t: ThreadId, after: After)
    requires LocksOwned(w) && t in w.threads && LockFollows(w.db, w.threads[t], after)
    ensures LocksOwned(World(after.db, Put(w.threads, t, after.thread)))
  {
  }

  /** A request locks nothing, or a free row in its own name. */
  ghost predicate LockBegins(db: Db, t: ThreadId, after: After) {
    after.thread.Some? &&
    match LockOf(after.thread.value)
    case None => after.db.locks == db.locks
    case Some(b) => b !in db.locks && after.db.locks == db.locks[b := t]
  }

  lemma RequestLocks(db: Db, t: ThreadId, r: Request)
    requires CanBegin(db, t, r)
    ensures LockBegins(db, t, BeginIn(db, t, r))
  {
    match r
    case GetAuthKey(_) =>
    case ConfirmDeliverable(_) =>
    case ControlOperation(_, _) =>
    case Validate(_) =>
    case InvalidateUnlocked(_) =>
    case RetryPending(_, _, _) =>
  }

  lemma BegunLocks(w: World, t: ThreadId, after: After)
    requires LocksOwned(w) && t !in w.threads && LockBegins(w.db, t, after)
    ensures LocksOwned(World(after.db, Put(w.threads, t, after.thread)))
  {
  }

  lemma BeginLocks(w: World, t: ThreadId, r: Request)
    requires LocksOwned(w) && Enabled(w, Begin(t, r))
    ensures LocksOwned(Apply(w, Begin(t, r)))
  {
    RequestLocks(w.db, t, r);
    BegunLocks(w, t, BeginIn(w.db, t, r));
  }

  lemma MoveLocks(w: World, t: ThreadId, m: Move)
    requires Inv(w) && LocksOwned(w) && Enabled(w, Act(t, m))
    ensures LocksOwned(Apply(w, Act(t, m)))
  {
    assert Holds(w.db, t, w.threads[t]);
    MoveLock(w.db, t, w.threads[t], m);
    FollowedLocks(w, t, MoveIn(w.db, t, w.threads[t], m));
  }

  lemma StepKeepsLocksOwned(w: World, a: Action)
    requires Inv(w) && LocksOwned(w) && Enabled(w, a)
    ensures LocksOwned(Apply(w, a))
  {
    match a
    case Happen(e) => assert HappenTo(w.db, e).locks == w.db.locks;
    case Begin(t, r) => BeginLocks(w, t, r);
    case Act(t, m) => MoveLocks(w, t, m);
  }

  // ---------- Runs that take no rows ----------

  predicate TakesNoRows(a: Action) {
    !(a.Act? && (a.move.MarkRows? || a.move.DeleteRows?))
  }

  ghost predicate Leads(w: World, rest: seq<Action>, w': World) {
    Runs(w, rest) && Final(w, rest) == w' && forall a :: a in rest ==> TakesNoRows(a)
  }

  lemma LeadsOn(w: World, xs: seq<Action>, w1: World, ys: seq<Action>, w2: World)
    requires Leads(w, xs, w1) && Leads(w1, ys, w2)
    ensures Leads(w, xs + ys, w2)
  {
    RunsThen(w, xs, ys);
  }

  lemma OneStepLeads(w: World, a: Action)
    requires Enabled(w, a) && TakesNoRows(a)
    ensures Leads(w, [a], Apply(w, a))
  {
    assert [a][1..] == [];
    assert Final(w, [a]) == Final(Apply(w, a), []);
  }

  lemma {:induction false} LeadsFairly(w: World, rest: seq<Action>)
    requires Runs(w, rest) && forall a :: a in rest ==> TakesNoRows(a)
    ensures AllActionsFair(w, rest)
    decreases |rest|
  {
    if |rest| > 0 {
      assert TakesNoRows(rest[0]);
      assert forall a :: a in rest[1..] ==> a in rest;
      LeadsFairly(Apply(w, rest[0]), rest[1..]);
    }
  }

  // ---------- The chase after one key ----------

  /** Thread f is about to return key k, which is live and staged by no invalidation. */
  ghost predicate Chased(w: World, k: Key, f: ThreadId, id: IntentId) {
    && Inv(w) && LocksOwned(w) && f in w.threads && w.threads[f] == Finalizing(k, id)
    && k in w.db.info && !Expired(w.db, k) && k !in w.db.invalidated
  }

  /** The key still has its provisional intent, but no visible row. */
  ghost predicate Trapped(w: World, k: Key, f: ThreadId, id: IntentId) {
    Chased(w, k, f, id) && IsProvisional(w.db, k) && !KeptByRow(w.db, k)
  }

  /** Worker v holds the lease on the key, behind `before` other claims. */
  ghost predicate Near(w: World, k: Key, f: ThreadId, id: IntentId, v: ThreadId, before: nat) {
    && Trapped(w, k, f, id) && v in w.threads && v != f && Worker(w.threads[v])
    && before < |w.threads[v].queue| && w.threads[v].queue[before].key == k
    && Leased(w.db.intents, k, w.threads[v].queue[before].id, w.threads[v].token)
  }

  lemma OthersStay(w: World, a: Action, u: ThreadId)
    requires Enabled(w, a) && u in w.threads && (a.Act? ==> a.t != u)
    ensures u in Apply(w, a).threads && Apply(w, a).threads[u] == w.threads[u]
  {
  }

  lemma StepKeepsChase(w: World, a: Action, k: Key, f: ThreadId, id: IntentId)
    requires Chased(w, k, f, id) && Enabled(w, a) && (a.Act? ==> a.t != f)
    requires Apply(w, a).db.invalidated == w.db.invalidated && !Expired(Apply(w, a).db, k)
    ensures Chased(Apply(w, a), k, f, id)
  {
    StepKeepsInv(w, a);
    StepKeepsLocksOwned(w, a);
    OthersStay(w, a, f);
    assert KeyStep(w.db, Apply(w, a).db, ActorOf(a), k);
  }

  /** The worker fails on what it has in hand and gives the claim back without effect. */
  function GiveUp(th: Thread): Move
    requires Worker(th) && (th.Recovering? ==> |th.queue| > 0)
  {
    if th.Releasing? then Release(Failed)
    else if th.RecoveringOne? then Revoke(Failed)
    else if th.queue[0].state == Ready then TakeReady
    else Resolve(Failed)
  }

  /** How far the worker is from taking up the claim at `before`. */
  function Distance(th: Thread, before: nat): nat
    requires Worker(th)
  {
    if th.Recovering? then 4 * before else if th.RecoveringOne? then 4 * before + 2 else 4 * before + 1
  }

  lemma GivesUp(db: Db, v: ThreadId, th: Thread, before: nat)
    requires Worker(th) && before < |th.queue| && (th.Recovering? ==> before > 0)
    ensures Can(db, v, th, GiveUp(th))
    ensures var after := MoveIn(db, v, th, GiveUp(th));
      && after.thread.Some? && Worker(after.thread.value) && after.thread.value.token == th.token
      && after.db == db.(recovered := after.db.recovered)
      && after.thread.value.queue == (if th.Recovering? then th.queue[1..] else th.queue)
      && Distance(after.thread.value, if th.Recovering? then before - 1 else before) < Distance(th, before)
  {
  }

  lemma ComesNearer(w: World, k: Key, f: ThreadId, id: IntentId, v: ThreadId, before: nat)
    requires Near(w, k, f, id, v, before) && (w.threads[v].Recovering? ==> before > 0)
    ensures var a := Act(v, GiveUp(w.threads[v])); var next := if w.threads[v].Recovering? then before - 1 else before;
      && Enabled(w, a) && TakesNoRows(a) && Near(Apply(w, a), k, f, id, v, next)
      && Distance(Apply(w, a).threads[v], next) < Distance(w.threads[v], before)
  {
    var th := w.threads[v];
    var a := Act(v, GiveUp(th));
    GivesUp(w.db, v, th, before);
    StepKeepsChase(w, a, k, f, id);
  }

  /** Worker v stands before the claim on key k. */
  ghost predicate AtHand(w: World, k: Key, f: ThreadId, id: IntentId, v: ThreadId) {
    Near(w, k, f, id, v, 0) && w.threads[v].Recovering?
  }

  lemma {:induction false} GetsAtHand(w: World, k: Key, f: ThreadId, id: IntentId, v: ThreadId, before: nat)
    returns (rest: seq<Action>, w': World)
    requires Near(w, k, f, id, v, before)
    ensures Leads(w, rest, w') && AtHand(w', k, f, id, v)
    decreases Distance(w.threads[v], before)
  {
    if w.threads[v].Recovering? && before == 0 {
      rest, w' := [], w;
    } else {
      var a := Act(v, GiveUp(w.threads[v]));
      ComesNearer(w, k, f, id, v, before);
      OneStepLeads(w, a);
      rest, w' := GetsAtHand(Apply(w, a), k, f, id, v, if w.threads[v].Recovering? then before - 1 else before);
      LeadsOn(w, [a], Apply(w, a), rest, w');
      rest := [a] + rest;
    }
  }

  // ---------- A new worker claims the key ----------

  lemma {:induction false} BiggerThanAll(used: set<nat>) returns (n: nat)
    ensures n !in used && forall k :: k in used ==> k < n
    decreases |used|
  {
    n := 0;
    if used != {} {
      var k :| k in used;
      var m := BiggerThanAll(used - {k});
      n := if m <= k then k + 1 else m;
      assert forall j :: j in used ==> j == k || j in used - {k};
    }
  }

  /** How long until the intent is due. */
  function Delay(db: Db, k: Key): nat
    requires k in db.intents
  {
    var due := ClaimTime(db.intents[k]);
    if due > db.now then due - db.now else 0
  }

  lemma DueLater(db: Db, k: Key)
    requires IsProvisional(db, k) && k in db.info && !Expired(db, k) && !KeptByRow(db, k)
    requires ClaimTime(db.intents[k]) < db.info[k].expires
    ensures var db' := db.(now := db.now + Delay(db, k));
      IsProvisional(db', k) && !Expired(db', k) && !KeptByRow(db', k) && Claimable(db'.intents[k], db'.now)
  {
  }

  /** Nothing but time passes until the intent is due. */
  lemma Waits(w: World, k: Key, f: ThreadId, id: IntentId) returns (rest: seq<Action>, w': World)
    requires Trapped(w, k, f, id) && ClaimTime(w.db.intents[k]) < w.db.info[k].expires
    ensures Leads(w, rest, w') && Trapped(w', k, f, id) && Claimable(w'.db.intents[k], w'.db.now)
  {
    var a := Happen(Elapse(Delay(w.db, k)));
    rest, w' := [a], Apply(w, a);
    OneStepLeads(w, a);
    StillTrappedLater(w, k, f, id);
  }

  lemma StillTrappedLater(w: World, k: Key, f: ThreadId, id: IntentId)
    requires Trapped(w, k, f, id) && ClaimTime(w.db.intents[k]) < w.db.info[k].expires
    ensures var w' := Apply(w, Happen(Elapse(Delay(w.db, k)))); Trapped(w', k, f, id) && Claimable(w'.db.intents[k], w'.db.now)
  {
    DueLater(w.db, k);
    StepKeepsChase(w, Happen(Elapse(Delay(w.db, k))), k, f, id);
  }

  /** A new worker claims just this intent. */
  lemma IsClaimed(w: World, k: Key, f: ThreadId, id: IntentId) returns (rest: seq<Action>, w': World, v: ThreadId)
    requires Trapped(w, k, f, id) && Claimable(w.db.intents[k], w.db.now)
    ensures Leads(w, rest, w') && AtHand(w', k, f, id, v)
  {
    v := BiggerThanAll(w.threads.Keys);
    var token := BiggerThanAll(w.db.tokenOwner.Keys);
    var a := Begin(v, RetryPending(token, [k], w.db.now));
    OneStepLeads(w, a);
    ClaimLeases(w, v, token, k);
    StepKeepsChase(w, a, k, f, id);
    rest, w' := [a], Apply(w, a);
    NowAtHand(w, w', k, f, id, v, token);
  }

  lemma NowAtHand(w: World, w': World, k: Key, f: ThreadId, id: IntentId, v: ThreadId, token: Token)
    requires Trapped(w, k, f, id) && Chased(w', k, f, id) && v != f
    requires w'.db == w.db.(intents := LeaseAll(w.db.intents, [k], Held(token, w.db.now + REVOCATION_LEASE)),
                            tokenOwner := w'.db.tokenOwner)
    requires v in w'.threads && w'.threads[v] == Recovering(token, [Claimed(k, w.db.intents[k].id, w.db.intents[k].state)])
    ensures AtHand(w', k, f, id, v)
  {
  }

  lemma ClaimLeases(w: World, v: ThreadId, token: Token, k: Key)
    requires k in w.db.intents && Claimable(w.db.intents[k], w.db.now) && token !in w.db.tokenOwner && v !in w.threads
    ensures var a, lease := Begin(v, RetryPending(token, [k], w.db.now)), Held(token, w.db.now + REVOCATION_LEASE);
      && Enabled(w, a)
      && Apply(w, a).db == w.db.(intents := LeaseAll(w.db.intents, [k], lease), tokenOwner := w.db.tokenOwner[token := v])
      && Apply(w, a).threads == w.threads[v := Recovering(token, [Claimed(k, w.db.intents[k].id, w.db.intents[k].state)])]
  {
    assert Snapshot(w.db.intents, [k]) == [Claimed(k, w.db.intents[k].id, w.db.intents[k].state)];
  }

  lemma IsClaimedInTime(w: World, k: Key, f: ThreadId, id: IntentId) returns (rest: seq<Action>, w': World, v: ThreadId)
    requires Trapped(w, k, f, id) && ClaimTime(w.db.intents[k]) < w.db.info[k].expires
    ensures Leads(w, rest, w') && AtHand(w', k, f, id, v)
  {
    var wait, w1 := Waits(w, k, f, id);
    var claim;
    claim, w', v := IsClaimed(w1, k, f, id);
    LeadsOn(w, wait, w1, claim, w');
    rest := wait + claim;
  }

  lemma ReleaseFrees(w: World, u: ThreadId, k: Key)
    requires u in w.threads && w.threads[u].Releasing? && Leased(w.db.intents, k, w.threads[u].id, w.threads[u].token)
    ensures var w' := Apply(w, Act(u, Release(Done)));
      && w'.db == w.db.(intents := w'.db.intents) && k in w'.db.intents
      && w'.db.intents[k] == w.db.intents[k].(lease := Free)
  {
  }

  lemma StillTrapped(w: World, u: ThreadId, k: Key, f: ThreadId, id: IntentId)
    requires Trapped(w, k, f, id) && u in w.threads && GivesBack(w.db, w.threads[u], k)
    ensures var w' := Apply(w, Act(u, Release(Done))); Trapped(w', k, f, id) && ClaimTime(w'.db.intents[k]) < w'.db.info[k].expires
  {
    ReleaseFrees(w, u, k);
    StepKeepsChase(w, Act(u, Release(Done)), k, f, id);
  }

  /** The lease comes back early, and the intent is claimed anew. */
  lemma IsGivenBack(w: World, k: Key, f: ThreadId, id: IntentId, u: ThreadId)
    returns (rest: seq<Action>, w': World, v: ThreadId)
    requires Trapped(w, k, f, id) && u in w.threads && GivesBack(w.db, w.threads[u], k)
    ensures Leads(w, rest, w') && AtHand(w', k, f, id, v)
  {
    var a := Act(u, Release(Done));
    OneStepLeads(w, a);
    StillTrapped(w, u, k, f, id);
    rest, w', v := IsClaimedInTime(Apply(w, a), k, f, id);
    LeadsOn(w, [a], Apply(w, a), rest, w');
    rest := [a] + rest;
  }

  lemma AWorkerComes(w: World, k: Key, f: ThreadId, id: IntentId) returns (rest: seq<Action>, w': World, v: ThreadId)
    requires Trapped(w, k, f, id) && InTime(w, k)
    ensures Leads(w, rest, w') && AtHand(w', k, f, id, v)
  {
    if ClaimTime(w.db.intents[k]) < w.db.info[k].expires {
      rest, w', v := IsClaimedInTime(w, k, f, id);
    } else {
      var u :| u in w.threads && Claims(w.db, w.threads[u], k);
      if Queued(w.db, w.threads[u], k) {
        var i :| 0 <= i < |w.threads[u].queue| && w.threads[u].queue[i].key == k
          && Leased(w.db.intents, k, w.threads[u].queue[i].id, w.threads[u].token);
        v := u;
        rest, w' := GetsAtHand(w, k, f, id, v, i);
      } else {
        rest, w', v := IsGivenBack(w, k, f, id, u);
      }
    }
  }

  lemma CrashFrees(w: World, u: ThreadId, b: Binding)
    requires u in w.threads && LockOf(w.threads[u]) == Some(b)
    ensures Apply(w, Act(u, Crash)).db == w.db.(locks := w.db.locks - {b})
  {
  }

  lemma StillAtHand(w: World, w': World, k: Key, f: ThreadId, id: IntentId, v: ThreadId)
    requires AtHand(w, k, f, id, v) && Chased(w', k, f, id) && w'.db == w.db.(locks := w'.db.locks)
    requires v in w'.threads && w'.threads[v] == w.threads[v]
    ensures AtHand(w', k, f, id, v)
  {
  }

  lemma HolderCrashes(w: World, k: Key, f: ThreadId, id: IntentId, v: ThreadId, u: ThreadId, b: Binding)
    requires AtHand(w, k, f, id, v) && u in w.threads && LockOf(w.threads[u]) == Some(b)
    ensures Leads(w, [Act(u, Crash)], Apply(w, Act(u, Crash))) && AtHand(Apply(w, Act(u, Crash)), k, f, id, v)
  {
    var a := Act(u, Crash);
    CrashFrees(w, u, b);
    OneStepLeads(w, a);
    OthersStay(w, a, v);
    StepKeepsChase(w, a, k, f, id);
    StillAtHand(w, Apply(w, a), k, f, id, v);
  }

  /** Whoever holds the row lock of the binding crashes. */
  lemma LockComesFree(w: World, k: Key, f: ThreadId, id: IntentId, v: ThreadId) returns (rest: seq<Action>, w': World)
    requires AtHand(w, k, f, id, v)
    ensures Leads(w, rest, w') && AtHand(w', k, f, id, v) && w'.db.info[k].slot.binding !in w'.db.locks
  {
    var b := w.db.info[k].slot.binding;
    rest, w' := [], w;
    if b in w.db.locks {
      var u := w.db.locks[b];
      assert LockOf(w.threads[u]) == Some(b);
      HolderCrashes(w, k, f, id, v, u, b);
      CrashFrees(w, u, b);
      rest, w' := [Act(u, Crash)], Apply(w, Act(u, Crash));
    }
  }

  /** Worker v revokes the key and has come to this stage. */
  ghost predicate Taken(w: World, k: Key, f: ThreadId, id: IntentId, v: ThreadId, stage: Stage) {
    && Chased(w, k, f, id) && v in w.threads && v != f
    && w.threads[v].RecoveringOne? && w.threads[v].job == Job(k, id, stage)
    && (stage == RowStage || stage == IntentStage ==> k in w.db.recovered)
  }

  lemma IsTaken(w: World, k: Key, f: ThreadId, id: IntentId, v: ThreadId) returns (rest: seq<Action>, w': World)
    requires AtHand(w, k, f, id, v) && w.db.info[k].slot.binding !in w.db.locks
    ensures Leads(w, rest, w') && Taken(w', k, f, id, v, CallStage)
  {
    assert Holds(w.db, f, w.threads[f]) && Holds(w.db, v, w.threads[v]);
    assert ClaimHolds(w.db, w.threads[v].token, w.threads[v].queue[0]);
    var a := Act(v, Resolve(Done));
    OneStepLeads(w, a);
    StepKeepsChase(w, a, k, f, id);
    rest, w' := [a], Apply(w, a);
  }

  lemma RevokesOn(w: World, k: Key, f: ThreadId, id: IntentId, v: ThreadId, stage: Stage) returns (rest: seq<Action>, w': World)
    requires Taken(w, k, f, id, v, stage) && (stage == CallStage || stage == RowStage)
    ensures Leads(w, rest, w') && Taken(w', k, f, id, v, NextStage(stage))
  {
    var a := Act(v, Revoke(Done));
    OneStepLeads(w, a);
    StepKeepsChase(w, a, k, f, id);
    rest, w' := [a], Apply(w, a);
  }

  ghost predicate Gone(w: World, k: Key, f: ThreadId, id: IntentId) {
    Chased(w, k, f, id) && k !in w.db.intents && k in w.db.recovered
  }

  lemma IntentGoes(w: World, k: Key, f: ThreadId, id: IntentId, v: ThreadId) returns (rest: seq<Action>, w': World)
    requires Taken(w, k, f, id, v, IntentStage)
    ensures Leads(w, rest, w') && Gone(w', k, f, id)
  {
    var a := Act(v, Revoke(Done));
    assert Holds(w.db, f, w.threads[f]) && KeyOk(w.db, k);
    OneStepLeads(w, a);
    StepKeepsChase(w, a, k, f, id);
    rest, w' := [a], Apply(w, a);
  }

  lemma IsReturned(w: World, k: Key, f: ThreadId, id: IntentId) returns (rest: seq<Action>, w': World)
    requires Gone(w, k, f, id)
    ensures Leads(w, rest, w') && !GoodKeysSpared(w'.db)
  {
    var a := Act(f, Finalize(Done));
    assert Holds(w.db, f, w.threads[f]);
    forall j | j in w.db.intents ensures w.db.intents[j].id != id { assert KeyOk(w.db, j); }
    assert !FinalizeRefused(w.db.intents, id);
    OneStepLeads(w, a);
    rest, w' := [a], Apply(w, a);
    assert k in w'.db.returned && k in w'.db.recovered && k !in w'.db.invalidated;
  }

  lemma IsRevoked(w: World, k: Key, f: ThreadId, id: IntentId, v: ThreadId) returns (rest: seq<Action>, w': World)
    requires Taken(w, k, f, id, v, CallStage)
    ensures Leads(w, rest, w') && Gone(w', k, f, id)
  {
    var r1, w1 := RevokesOn(w, k, f, id, v, CallStage);
    var r2, w2 := RevokesOn(w1, k, f, id, v, RowStage);
    LeadsOn(w, r1, w1, r2, w2);
    var r3;
    r3, w' := IntentGoes(w2, k, f, id, v);
    LeadsOn(w, r1 + r2, w2, r3, w');
    rest := r1 + r2 + r3;
  }

  /** Recovery revokes the trapped key, and its issuer returns it none the less. */
  lemma TrapCloses(w: World, k: Key, f: ThreadId, id: IntentId) returns (rest: seq<Action>, w': World)
    requires Trapped(w, k, f, id) && InTime(w, k)
    ensures Leads(w, rest, w') && !GoodKeysSpared(w'.db)
  {
    var r1, w1, v := AWorkerComes(w, k, f, id);
    var r2, w2 := LockComesFree(w1, k, f, id, v);
    LeadsOn(w, r1, w1, r2, w2);
    var r3, w3 := IsTaken(w2, k, f, id, v);
    LeadsOn(w, r1 + r2, w2, r3, w3);
    var r4, w4 := IsRevoked(w3, k, f, id, v);
    LeadsOn(w, r1 + r2 + r3, w3, r4, w4);
    var r5;
    r5, w' := IsReturned(w4, k, f, id);
    LeadsOn(w, r1 + r2 + r3 + r4, w4, r5, w');
    rest := r1 + r2 + r3 + r4 + r5;
  }

  // ---------- Exactly the unfair statements fail ----------

  /** However the run goes on with fair statements, recovery spares the good keys. */
  ghost predicate SparesForGood(w: World) {
    forall rest :: Runs(w, rest) && AllActionsFair(w, rest) ==> GoodKeysSpared(Final(w, rest).db)
  }

  lemma TrapFails(w: World, k: Key, f: ThreadId, id: IntentId)
    requires Trapped(w, k, f, id) && InTime(w, k)
    ensures !SparesForGood(w)
  {
    var rest, w' := TrapCloses(w, k, f, id);
    LeadsFairly(w, rest);
  }

  lemma TakingKeepsThreads(w: World, t: ThreadId, m: Move, u: ThreadId)
    requires Enabled(w, Act(t, m)) && TakesRows(w.threads[t], m) && u in w.threads && (w.threads[u].Finalizing? || Worker(w.threads[u]))
    ensures u in Apply(w, Act(t, m)).threads && Apply(w, Act(t, m)).threads[u] == w.threads[u]
  {
    OthersStay(w, Act(t, m), u);
  }

  lemma TakingKeepsClaims(w: World, t: ThreadId, m: Move, k: Key)
    requires Enabled(w, Act(t, m)) && TakesRows(w.threads[t], m) && InTime(w, k)
    ensures InTime(Apply(w, Act(t, m)), k)
  {
    var w' := Apply(w, Act(t, m));
    assert w'.db == w.db.(rows := w'.db.rows);
    if ClaimTime(w.db.intents[k]) >= w.db.info[k].expires {
      var u :| u in w.threads && Claims(w.db, w.threads[u], k);
      TakingKeepsThreads(w, t, m, u);
      OtherClaims(w'.db, w.db, w.threads[u], w.threads[u], k);
    }
  }

  lemma TakingHides(w: World, t: ThreadId, m: Move, s: Slot)
    requires Inv(w) && Enabled(w, Act(t, m)) && TakesRows(w.threads[t], m)
    requires s in w.db.rows && s.binding == w.threads[t].cause.binding
    ensures var db' := Apply(w, Act(t, m)).db; db' == w.db.(rows := db'.rows) && !KeptByRow(db', w.db.rows[s].key)
  {
    assert RowOk(w.db, s);
  }

  lemma UnfairFails(w: World, t: ThreadId, m: Move)
    requires Inv(w) && LocksOwned(w) && Enabled(w, Act(t, m)) && !Fair(w, Act(t, m))
    ensures !SparesForGood(Apply(w, Act(t, m)))
  {
    var s :| s in w.db.rows && s.binding == w.threads[t].cause.binding && Exposed(w, w.db.rows[s].key);
    var k, w' := w.db.rows[s].key, Apply(w, Act(t, m));
    var f :| f in w.threads && w.threads[f].Finalizing? && w.threads[f].key == k;
    StepKeepsInv(w, Act(t, m));
    StepKeepsLocksOwned(w, Act(t, m));
    TakingHides(w, t, m, s);
    TakingKeepsThreads(w, t, m, f);
    TakingKeepsClaims(w, t, m, k);
    assert KeyOk(w.db, k) && RowOk(w.db, s);
    TrapFails(w', k, f, w.threads[f].id);
  }

  lemma FairSparesForGood(w: World)
    requires Inv(w) && AllFair(w)
    ensures SparesForGood(w)
  {
    forall rest | Runs(w, rest) && AllActionsFair(w, rest) ensures GoodKeysSpared(Final(w, rest).db) {
      RunKeepsFair(w, rest);
      FairSparesGoodKeys(Final(w, rest));
    }
  }

  /** A step is fair exactly when no fair continuation of it makes recovery revoke a key that was handed out. */
  lemma FairExactly(w: World, a: Action)
    requires Inv(w) && AllFair(w) && LocksOwned(w) && Enabled(w, a)
    ensures Fair(w, a) <==> SparesForGood(Apply(w, a))
  {
    if Fair(w, a) {
      StepKeepsInv(w, a);
      StepKeepsFair(w, a);
      FairSparesForGood(Apply(w, a));
    } else {
      UnfairFails(w, a.t, a.move);
    }
  }

  /** No prefix of the run can be continued fairly to a good key revoked by recovery. */
  ghost predicate SparesAlong(w: World, actions: seq<Action>)
    decreases |actions|
  {
    SparesForGood(w) && (|actions| > 0 ==> SparesAlong(Apply(w, actions[0]), actions[1..]))
  }

  lemma {:induction false} FairAlong(w: World, actions: seq<Action>)
    requires Inv(w) && AllFair(w) && LocksOwned(w) && Runs(w, actions)
    ensures AllActionsFair(w, actions) <==> SparesAlong(w, actions)
    decreases |actions|
  {
    FairSparesForGood(w);
    if |actions| > 0 {
      FairExactly(w, actions[0]);
      if Fair(w, actions[0]) {
        StepKeepsInv(w, actions[0]);
        StepKeepsFair(w, actions[0]);
        StepKeepsLocksOwned(w, actions[0]);
        FairAlong(Apply(w, actions[0]), actions[1..]);
      }
    }
  }

  /** For every run from the start: all its statements are fair exactly when no prefix of it endangers a good key. */
  lemma GoodKeysAreSparedExactlyInFairRuns(actions: seq<Action>)
    requires Runs(EMPTY_WORLD, actions)
    ensures AllActionsFair(EMPTY_WORLD, actions) <==> SparesAlong(EMPTY_WORLD, actions)
  {
    EmptyWorldInv();
    FairAlong(EMPTY_WORLD, actions);
  }

}
