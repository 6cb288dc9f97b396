/** Recovery is fair in every run that takes no row of an exposed key. */
module SagaFairRuns {
  import opened SagaState
  import opened SagaSteps
  import opened SagaInvariant
  import opened SagaTheorems
  import opened SagaTracking
  import opened SagaLosses
  import opened SagaFairness
  import opened SagaFairnessProof
  import opened SagaMoves

  // ---------- What the actor does to what can still be claimed ----------

  /** Seen from key k: the other threads stand still and the actor claims nothing it could not claim before. */
  ghost predicate ClaimsBefore(w: World, w': World, t: ThreadId, k: Key) {
    && (forall u :: u in w'.threads && u != t ==> u in w.threads && w.threads[u] == w'.threads[u])
    && (t in w'.threads && Claims(w'.db, w'.threads[t], k) ==> t in w.threads && Claims(w.db, w.threads[t], k))
  }

  /** A key nobody could claim in time before the step cannot be claimed in time after it. */
  lemma InTimeBefore(w: World, w': World, t: ThreadId, th: Thread, k: Key)
    requires IsProvisional(w.db, k) && IsProvisional(w'.db, k) && SameIntent(w.db, w'.db, th, k)
    requires th.Releasing? ==> t in w.threads && w.threads[t] == th
    requires k in w.db.info && k in w'.db.info && w'.db.info[k] == w.db.info[k]
    requires ClaimsBefore(w, w', t, k) && InTime(w', k)
    ensures InTime(w, k)
  {
    if ClaimTime(w'.db.intents[k]) < w'.db.info[k].expires {
      if w'.db.intents[k] != w.db.intents[k] { assert Claims(w.db, th, k); }
    } else {
      var u :| u in w'.threads && Claims(w'.db, w'.threads[u], k);
      if u != t { OtherClaims(w.db, w'.db, th, w.threads[u], k); }
    }
  }

  lemma OtherClaims(db: Db, db': Db, actor: Thread, th: Thread, k: Key)
    requires k in db.intents && k in db'.intents && SameIntent(db, db', actor, k) && Claims(db', th, k)
    requires k in db.info && k in db'.info && db'.info[k] == db.info[k]
    ensures Claims(db, th, k)
  {
    if Queued(db', th, k) {
      var i :| 0 <= i < |th.queue| && th.queue[i].key == k && Leased(db'.intents, k, th.queue[i].id, th.token);
      assert Leased(db.intents, k, th.queue[i].id, th.token);
      assert Queued(db, th, k);
    }
  }

  // ---------- Moves ----------

  /** A fair move of thread t from w to w', as far as keys are concerned. */
  ghost predicate FairMove(w: World, w': World, t: ThreadId, m: Move) {
    && EvenMove(w, w', t, m) && AllFair(w)
    && (m.MarkRows? || m.DeleteRows? ==> forall k :: KeptByRow(w.db, k) && !KeptByRow(w'.db, k) ==> !Exposed(w, k))
  }

  lemma TakenRow(w: World, t: ThreadId, m: Move, k: Key)
    requires Enabled(w, Act(t, m)) && Fair(w, Act(t, m)) && (m.MarkRows? || m.DeleteRows?)
    requires KeptByRow(w.db, k) && !KeptByRow(MoveIn(w.db, t, w.threads[t], m).db, k)
    ensures !Exposed(w, k)
  {
    var s := w.db.info[k].slot;
    assert s in w.db.rows && w.db.rows[s].key == k;
    assert s.binding == w.threads[t].cause.binding;
  }

  lemma MoveIsFair(w: World, t: ThreadId, m: Move)
    requires Inv(w) && AllFair(w) && Enabled(w, Act(t, m)) && Fair(w, Act(t, m))
    ensures FairMove(w, Apply(w, Act(t, m)), t, m)
  {
    MoveIsEven(w, t, m);
    TakenRows(w, t, m);
  }

  lemma TakenRows(w: World, t: ThreadId, m: Move)
    requires Enabled(w, Act(t, m)) && Fair(w, Act(t, m))
    ensures m.MarkRows? || m.DeleteRows? ==>
      forall k :: KeptByRow(w.db, k) && !KeptByRow(MoveIn(w.db, t, w.threads[t], m).db, k) ==> !Exposed(w, k)
  {
    if m.MarkRows? || m.DeleteRows? {
      forall k | KeptByRow(w.db, k) && !KeptByRow(MoveIn(w.db, t, w.threads[t], m).db, k) ensures !Exposed(w, k) {
        TakenRow(w, t, m, k);
      }
    }
  }

  lemma MoveClaimsBefore(w: World, w': World, t: ThreadId, m: Move, k: Key)
    requires FairMove(w, w', t, m)
    requires IsProvisional(w.db, k) && IsProvisional(w'.db, k) && SameIntent(w.db, w'.db, w.threads[t], k)
    ensures ClaimsBefore(w, w', t, k)
  {
    assert Holds(w.db, t, w.threads[t]);
    if t in w'.threads && Claims(w'.db, w'.threads[t], k) { NextClaims(w.db, t, w'.db, w.threads[t], w'.threads[t], k); }
  }

  lemma NoNewFinalizer(w: World, w': World, t: ThreadId, m: Move, k: Key)
    requires FairMove(w, w', t, m) && k in w.db.closed
    ensures t in w'.threads && w'.threads[t].Finalizing? ==> w'.threads[t].key != k
  {
    if t in w'.threads { assert MayHandOut(w.db, w'.threads[t], k); }
  }

  /** Who finalizes the key after the move has finalized it before. */
  lemma FinalizedBefore(w: World, w': World, t: ThreadId, m: Move, k: Key)
    requires FairMove(w, w', t, m) && BeingFinalized(w', k) && k in w.db.closed
    ensures BeingFinalized(w, k)
  {
    NoNewFinalizer(w, w', t, m, k);
    var u :| u in w'.threads && w'.threads[u].Finalizing? && w'.threads[u].key == k;
    assert w.threads[u] == w'.threads[u];
  }

  lemma HiddenAfterMove(w: World, w': World, t: ThreadId, m: Move, k: Key)
    requires FairMove(w, w', t, m) && Hidden(w', k)
    ensures !InTime(w', k)
  {
    var th := w.threads[t];
    assert IntentEven(w.db, th, w'.db, k) && KeyFair(w, k) && KeyOk(w.db, k) && KeyStep(w.db, w'.db, t, k);
    FinalizedBefore(w, w', t, m, k);
    MoveClaimsBefore(w, w', t, m, k);
    if !(m.MarkRows? || m.DeleteRows?) { assert RowEven(w.db, w'.db, k); }
    if InTime(w', k) { InTimeBefore(w, w', t, th, k); }
  }

  lemma StaysOutOfReach(w: World, w': World, t: ThreadId, m: Move, k: Key)
    requires FairMove(w, w', t, m) && k in w.db.barred && !Excused(w'.db, k)
    ensures OutOfReach(w', k)
  {
    KeyMoved(w, w', t, m, k);
    assert KeyFair(w, k);
    OutOfReachStays(w, w', t, m, k);
  }

  /** Nobody but its issuer finalizes a key, and nobody reuses one with a provisional intent. */
  lemma NobodyElseHandsOut(w: World, k: Key, u: ThreadId)
    requires Inv(w) && IsProvisional(w.db, k) && u in w.threads && HandsOut(w.threads[u], k)
    ensures w.threads[u].Finalizing? && k in w.db.committed && k in w.db.info && w.db.info[k].owner == u
  {
    assert Holds(w.db, u, w.threads[u]) && KeyOk(w.db, k);
  }

  /** A worker that finds no row for its claim does not meet a key about to be returned: that key would be hidden. */
  lemma ResolverMeetsNoIssuer(w: World, t: ThreadId, k: Key, u: ThreadId)
    requires Inv(w) && KeyFair(w, k) && t in w.threads && Resolving(w.db, w.threads[t], k)
    requires IsProvisional(w.db, k) && !Excused(w.db, k) && u in w.threads
    ensures !HandsOut(w.threads[u], k)
  {
    if HandsOut(w.threads[u], k) {
      NobodyElseHandsOut(w, k, u);
      assert Queued(w.db, w.threads[t], k);
      assert Claims(w.db, w.threads[t], k);
    }
  }

  lemma NobodyHandsOutWhatIsBarred(w: World, w': World, t: ThreadId, m: Move, k: Key, u: ThreadId)
    requires FairMove(w, w', t, m) && k !in w.db.barred && k in w'.db.barred && !Excused(w'.db, k)
    requires u in w.threads && u != t
    ensures !HandsOut(w.threads[u], k)
  {
    KeyMoved(w, w', t, m, k);
    if Resolving(w.db, w.threads[t], k) { ResolverMeetsNoIssuer(w, t, k, u); } else {
      assert Holds(w.db, t, w.threads[t]);
      if HandsOut(w.threads[u], k) { NobodyElseHandsOut(w, k, u); }
    }
  }

  lemma ActorHandsOutNothingBarred(w: World, w': World, t: ThreadId, m: Move, k: Key)
    requires FairMove(w, w', t, m) && k !in w.db.barred && k in w'.db.barred && !Excused(w'.db, k) && t in w'.threads
    ensures !HandsOut(w'.threads[t], k)
  {
    KeyMoved(w, w', t, m, k);
    assert MayHandOut(w.db, w'.threads[t], k);
  }

  lemma NobodyHandsOutAfter(w: World, w': World, t: ThreadId, m: Move, k: Key)
    requires FairMove(w, w', t, m) && k !in w.db.barred && k in w'.db.barred && !Excused(w'.db, k)
    ensures forall u :: u in w'.threads ==> !HandsOut(w'.threads[u], k)
  {
    forall u | u in w'.threads ensures !HandsOut(w'.threads[u], k) {
      if u == t { ActorHandsOutNothingBarred(w, w', t, m, k); }
      else { NobodyHandsOutWhatIsBarred(w, w', t, m, k, u); }
    }
  }

  lemma ComesOutOfReach(w: World, w': World, t: ThreadId, m: Move, k: Key)
    requires FairMove(w, w', t, m) && k !in w.db.barred && k in w'.db.barred && !Excused(w'.db, k)
    ensures OutOfReach(w', k)
  {
    KeyMoved(w, w', t, m, k);
    NobodyHandsOutAfter(w, w', t, m, k);
  }

  lemma MoveKeepsUse(w: World, w': World, t: ThreadId, m: Move, k: Key)
    requires FairMove(w, w', t, m) && k in w'.db.recovered && k in w'.db.returned
    ensures k in w'.db.invalidated
  {
    KeyMoved(w, w', t, m, k);
    assert KeyFair(w, k);
  }

  lemma MoveKeepsKeyFair(w: World, w': World, t: ThreadId, m: Move, k: Key)
    requires FairMove(w, w', t, m)
    ensures KeyFair(w', k)
  {
    if k in w'.db.recovered && k in w'.db.returned { MoveKeepsUse(w, w', t, m, k); }
    if k in w'.db.barred && !Excused(w'.db, k) {
      if k in w.db.barred { StaysOutOfReach(w, w', t, m, k); } else { ComesOutOfReach(w, w', t, m, k); }
    }
    if Hidden(w', k) { HiddenAfterMove(w, w', t, m, k); }
  }

  lemma MoveKeepsFair(w: World, t: ThreadId, m: Move)
    requires Inv(w) && AllFair(w) && Enabled(w, Act(t, m)) && Fair(w, Act(t, m))
    ensures AllFair(Apply(w, Act(t, m)))
  {
    MoveIsFair(w, t, m);
    forall k ensures KeyFair(Apply(w, Act(t, m)), k) { MoveKeepsKeyFair(w, Apply(w, Act(t, m)), t, m, k); }
  }

  // ---------- Requests and events ----------

  lemma CalmHidden(w: World, w': World, t: ThreadId, k: Key)
    requires CalmStep(w, w', t) && Hidden(w', k)
    ensures Hidden(w, k)
  {
    assert KeyStep(w.db, w'.db, t, k) && RowEven(w.db, w'.db, k);
    var u :| u in w'.threads && w'.threads[u].Finalizing? && w'.threads[u].key == k;
    assert u in w.threads && w.threads[u] == w'.threads[u];
  }

  lemma CalmOutOfReach(w: World, w': World, t: ThreadId, k: Key)
    requires CalmStep(w, w', t) && KeyFair(w, k) && k in w.db.barred && !Excused(w'.db, k)
    ensures OutOfReach(w', k)
  {
    assert KeyOk(w.db, k) && KeyStep(w.db, w'.db, t, k);
    ExcusedStable(w.db, w'.db, k);
    if !InRow(w.db, k) { NotInRowAfter(w.db, w'.db, t, k); }
  }

  lemma CalmKeyFair(w: World, w': World, t: ThreadId, k: Key)
    requires CalmStep(w, w', t) && KeyFair(w, k)
    requires Hidden(w, k) && Hidden(w', k) && InTime(w', k) ==> InTime(w, k)
    ensures KeyFair(w', k)
  {
    if k in w.db.barred && !Excused(w'.db, k) { CalmOutOfReach(w, w', t, k); }
    if Hidden(w', k) { CalmHidden(w, w', t, k); }
    assert KeyStep(w.db, w'.db, t, k);
  }

  /** When the intents do not change and no worker comes, neither does what can still be claimed. */
  lemma SameClaims(w: World, w': World, t: ThreadId, k: Key)
    requires CalmStep(w, w', t) && w'.db.intents == w.db.intents && IsProvisional(w.db, k)
    requires t in w'.threads && t !in w.threads ==> !Worker(w'.threads[t])
    requires InTime(w', k)
    ensures InTime(w, k)
  {
    assert KeyOk(w.db, k) && KeyStep(w.db, w'.db, t, k);
    if ClaimTime(w.db.intents[k]) >= w.db.info[k].expires {
      var u :| u in w'.threads && Claims(w'.db, w'.threads[u], k);
      assert u in w.threads && w.threads[u] == w'.threads[u];
      OtherClaims(w.db, w'.db, w.threads[u], w.threads[u], k);
    }
  }

  lemma CalmKeepsFair(w: World, w': World, t: ThreadId)
    requires CalmStep(w, w', t) && AllFair(w) && w'.db.intents == w.db.intents
    requires t in w'.threads && t !in w.threads ==> !Worker(w'.threads[t])
    ensures AllFair(w')
  {
    forall k ensures KeyFair(w', k) {
      assert KeyFair(w, k);
      if Hidden(w, k) && InTime(w', k) { SameClaims(w, w', t, k); }
      CalmKeyFair(w, w', t, k);
    }
  }

  lemma HappenKeepsFair(w: World, e: Event)
    requires Inv(w) && AllFair(w) && Enabled(w, Happen(e))
    ensures AllFair(Apply(w, Happen(e)))
  {
    HappenIsCalm(w, e, 0);
    CalmKeepsFair(w, Apply(w, Happen(e)), 0);
  }

  lemma LockKeepsFair(w: World, t: ThreadId, r: Request)
    requires Inv(w) && AllFair(w) && Enabled(w, Begin(t, r)) && !r.RetryPending?
    ensures AllFair(Apply(w, Begin(t, r)))
  {
    BeginIsCalm(w, t, r);
    LockKeepsIntents(w, t, r);
    CalmKeepsFair(w, Apply(w, Begin(t, r)), t);
  }

  lemma LockKeepsIntents(w: World, t: ThreadId, r: Request)
    requires Enabled(w, Begin(t, r)) && !r.RetryPending?
    ensures var w' := Apply(w, Begin(t, r)); w'.db.intents == w.db.intents && t in w'.threads && !Worker(w'.threads[t])
  {
  }

  /** A hidden key is not among the claimed ones: it is not due before it expires. */
  lemma ClaimMissesHidden(w: World, t: ThreadId, token: Token, keys: seq<Key>, at: nat, k: Key)
    requires Inv(w) && Enabled(w, Begin(t, RetryPending(token, keys, at))) && Hidden(w, k) && !InTime(w, k)
    ensures !InTime(Apply(w, Begin(t, RetryPending(token, keys, at))), k)
  {
    var w' := Apply(w, Begin(t, RetryPending(token, keys, at)));
    assert KeyOk(w.db, k);
    assert k !in keys;
    assert w'.db.intents[k] == w.db.intents[k];
    forall u | u in w'.threads ensures !Claims(w'.db, w'.threads[u], k) {
      if u != t && Claims(w'.db, w'.threads[u], k) { OtherClaims(w.db, w'.db, w.threads[u], w.threads[u], k); }
    }
  }

  lemma ClaimKeepsFair(w: World, t: ThreadId, token: Token, keys: seq<Key>, at: nat)
    requires Inv(w) && AllFair(w) && Enabled(w, Begin(t, RetryPending(token, keys, at)))
    ensures AllFair(Apply(w, Begin(t, RetryPending(token, keys, at))))
  {
    var w' := Apply(w, Begin(t, RetryPending(token, keys, at)));
    BeginIsCalm(w, t, RetryPending(token, keys, at));
    forall k ensures KeyFair(w', k) {
      assert KeyFair(w, k);
      if Hidden(w, k) { ClaimMissesHidden(w, t, token, keys, at, k); }
      CalmKeyFair(w, w', t, k);
    }
  }

  // ---------- Runs ----------

  lemma StepKeepsFair(w: World, a: Action)
    requires Inv(w) && AllFair(w) && Enabled(w, a) && Fair(w, a)
    ensures AllFair(Apply(w, a))
  {
    match a
    case Happen(e) => HappenKeepsFair(w, e);
    case Begin(t, r) =>
      if r.RetryPending? { ClaimKeepsFair(w, t, r.token, r.keys, r.at); } else { LockKeepsFair(w, t, r); }
    case Act(t, m) => MoveKeepsFair(w, t, m);
  }

  lemma {:induction false} RunKeepsFair(w: World, actions: seq<Action>)
    requires Inv(w) && AllFair(w) && Runs(w, actions) && AllActionsFair(w, actions)
    ensures Inv(Final(w, actions)) && AllFair(Final(w, actions))
    decreases |actions|
  {
    if |actions| > 0 {
      StepKeepsInv(w, actions[0]);
      StepKeepsFair(w, actions[0]);
      RunKeepsFair(Apply(w, actions[0]), actions[1..]);
    }
  }

  /** No key that GetAuthKey returned was ever sent upstream by recovery, unless an invalidation had staged it. */
  ghost predicate GoodKeysSpared(db: Db) {
    forall k :: k in db.returned && k in db.recovered ==> k in db.invalidated
  }

  lemma FairSparesGoodKeys(w: World)
    requires AllFair(w)
    ensures GoodKeysSpared(w.db)
  {
    forall k | k in w.db.returned && k in w.db.recovered ensures k in w.db.invalidated { assert KeyFair(w, k); }
  }

  lemma RecoverySparesGoodKeys(actions: seq<Action>)
    requires Runs(EMPTY_WORLD, actions) && AllActionsFair(EMPTY_WORLD, actions)
    ensures GoodKeysSpared(Final(EMPTY_WORLD, actions).db)
  {
    EmptyWorldInv();
    RunKeepsFair(EMPTY_WORLD, actions);
    FairSparesGoodKeys(Final(EMPTY_WORLD, actions));
  }

  /** Under the row lock every live row is staged already, and a staged row's intent is not provisional. */
  lemma LockedStepIsFair(w: World, a: Action)
    requires Inv(w) && AllHeld(w) && Enabled(w, a)
    ensures Fair(w, a)
  {
    if a.Act? && TakesRows(w.threads[a.t], a.move) {
      assert Holds(w.db, a.t, w.threads[a.t]);
      forall s | s in w.db.rows && s.binding == w.threads[a.t].cause.binding ensures !Exposed(w, w.db.rows[s].key) {
        assert KeyOk(w.db, w.db.rows[s].key);
      }
    }
  }

  lemma {:induction false} LockedRunIsFair(w: World, actions: seq<Action>)
    requires Inv(w) && AllHeld(w) && Runs(w, actions) && forall i :: 0 <= i < |actions| ==> KeepsItsLock(actions[i])
    ensures AllActionsFair(w, actions)
    decreases |actions|
  {
    if |actions| > 0 {
      StepKeepsInv(w, actions[0]);
      LockedStepIsFair(w, actions[0]);
      StepKeepsHeld(w, actions[0]);
      LockedRunIsFair(Apply(w, actions[0]), actions[1..]);
    }
  }

  lemma RecoverySparesGoodKeysUnderRowLock(actions: seq<Action>)
    requires Runs(EMPTY_WORLD, actions) && forall i :: 0 <= i < |actions| ==> KeepsItsLock(actions[i])
    ensures GoodKeysSpared(Final(EMPTY_WORLD, actions).db)
  {
    EmptyWorldInv();
    LockedRunIsFair(EMPTY_WORLD, actions);
    RecoverySparesGoodKeys(actions);
  }

  // ---------- What recovery condemns stays unreturned ----------

  lemma BarredMoveReturnsNothing(w: World, w': World, t: ThreadId, m: Move, k: Key)
    requires FairMove(w, w', t, m) && k in w.db.barred && k !in w.db.returned
    ensures k in w'.db.returned ==> k in w'.db.invalidated
  {
    KeyMoved(w, w', t, m, k);
    assert KeyFair(w, k);
  }

  lemma BeginReturnsNothing(db: Db, t: ThreadId, r: Request)
    requires CanBegin(db, t, r)
    ensures BeginIn(db, t, r).db.returned == db.returned
  {
  }

  lemma OnlyMovesReturn(w: World, a: Action)
    requires Enabled(w, a) && !a.Act?
    ensures Apply(w, a).db.returned == w.db.returned
  {
    match a
    case Happen(e) => assert HappenTo(w.db, e).returned == w.db.returned;
    case Begin(t, r) => BeginReturnsNothing(w.db, t, r);
  }

  lemma BarredStepReturnsNothing(w: World, a: Action, k: Key)
    requires Inv(w) && AllFair(w) && Enabled(w, a) && Fair(w, a) && k in w.db.barred && k !in w.db.returned
    ensures k in Apply(w, a).db.returned ==> k in Apply(w, a).db.invalidated
  {
    if a.Act? {
      MoveIsFair(w, a.t, a.move);
      BarredMoveReturnsNothing(w, Apply(w, a), a.t, a.move, k);
    } else {
      OnlyMovesReturn(w, a);
    }
  }

  /** A key that compensation or recovery took is never returned afterwards, unless an invalidation stages it too. */
  lemma {:induction false} BarredIsNotReturned(w: World, actions: seq<Action>, k: Key)
    requires Inv(w) && AllFair(w) && Runs(w, actions) && AllActionsFair(w, actions)
    requires k in w.db.barred && (k in w.db.returned ==> k in w.db.invalidated)
    ensures k in Final(w, actions).db.returned ==> k in Final(w, actions).db.invalidated
    decreases |actions|
  {
    if |actions| > 0 {
      var w' := Apply(w, actions[0]);
      if k !in w.db.returned { BarredStepReturnsNothing(w, actions[0], k); }
      StepKeepsInv(w, actions[0]);
      assert KeyStep(w.db, w'.db, ActorOf(actions[0]), k);
      StepKeepsFair(w, actions[0]);
      BarredIsNotReturned(w', actions[1..], k);
    }
  }

  lemma OnlyResolvedBecomesReady(db: Db, t: ThreadId, th: Thread, outcome: Outcome)
    requires Global(db) && Holds(db, t, th) && Can(db, t, th, Resolve(outcome))
    ensures var key, db' := th.queue[0].key, ResolveIn(db, th, outcome).db;
      !IsReady(db, key) && IsReady(db', key) ==>
        !KeptByRow(db, key) && key in db'.barred && key in db'.closed && IsProvisional(db, key)
  {
  }

  /**
   RetryPending sends the key of a provisional intent to its revocation only when the key has no visible
   row; from then on nobody can commit a row for it, and in a fair run nobody is ever given it.
   */
  lemma ResolveRevokesOnlyAbandonedKeys(w: World, t: ThreadId, outcome: Outcome, rest: seq<Action>)
    requires Inv(w) && AllFair(w) && Enabled(w, Act(t, Resolve(outcome)))
    requires Runs(Apply(w, Act(t, Resolve(outcome))), rest) && AllActionsFair(Apply(w, Act(t, Resolve(outcome))), rest)
    ensures var key := w.threads[t].queue[0].key; var w1 := Apply(w, Act(t, Resolve(outcome))); var w2 := Final(w1, rest);
      !IsReady(w.db, key) && IsReady(w1.db, key) ==>
        && !KeptByRow(w.db, key)
        && (forall u :: u in w2.threads && (w2.threads[u].Staged? || w2.threads[u].Written?) ==> w2.threads[u].key != key)
        && (key in w2.db.returned ==> key in w2.db.invalidated)
  {
    var key, a := w.threads[t].queue[0].key, Act(t, Resolve(outcome));
    var w1 := Apply(w, a);
    var w2 := Final(w1, rest);
    OnlyResolvedBecomesReady(w.db, t, w.threads[t], outcome);
    StepKeepsInv(w, a);
    StepKeepsFair(w, a);
    RunKeepsFair(w1, rest);
    if !IsReady(w.db, key) && IsReady(w1.db, key) {
      assert KeyOk(w.db, key) && KeyOk(w1.db, key);
      BarredIsNotReturned(w1, rest, key);
      ClosedStays(w1, rest, key);
      ClosedKeyIsNotWritten(w2, key);
    }
  }

  lemma {:induction false} ClosedStays(w: World, actions: seq<Action>, k: Key)
    requires Inv(w) && Runs(w, actions) && k in w.db.closed
    ensures k in Final(w, actions).db.closed
    decreases |actions|
  {
    if |actions| > 0 {
      StepKeepsInv(w, actions[0]);
      assert KeyStep(w.db, Apply(w, actions[0]).db, ActorOf(actions[0]), k);
      ClosedStays(Apply(w, actions[0]), actions[1..], k);
    }
  }

}
