/** What holds in every run of the saga. */
module SagaTheorems {
  import opened SagaState
  import opened SagaSteps
  import opened SagaInvariant
  import opened SagaProof
  import opened SagaInvalidationProof
  import opened SagaRecoveryProof
  import opened SagaAloneProof

  predicate Issuer(th: Thread) {
    th.Locked? || th.RowsCounted? || th.Checked? || th.Issuing? || th.Issued? || th.Untracked? || th.Staged?
    || th.Written? || th.Finalizing? || th.Compensating? || th.Reusing?
  }

  lemma EarlyIssuerMoveSound(db: Db, t: ThreadId, th: Thread, m: Move)
    requires Global(db) && Holds(db, t, th) && Can(db, t, th, m) && Issuer(th) && !Alone(m)
    requires !m.Abandon? && !m.Commit? && !m.Finalize? && !m.Revoke? && !m.Crash?
    ensures Sound(db, t, MoveIn(db, t, th, m))
  {
    match m
    case FindInactive => SameDb(db, t);
    case CountPendingRows => SameDb(db, t);
    case CountIntents => CountIntentsSound(db, t, th);
    case ReadArtifact => ReadArtifactSound(db, t, th);
    case UpstreamIssues(key, expires) => UpstreamIssuesSound(db, t, th, key, expires);
    case UpstreamRejects => SameDb(db, t);
    case Stage(id, outcome) => StageIssuedSound(db, t, th, id, outcome);
    case RevokeUntracked(outcome) => RevokeUntrackedSound(db, t, th, outcome);
    case WriteRow => WriteRowSound(db, t, th);
  }

  lemma CommitIssuerSound(db: Db, t: ThreadId, th: Thread, outcome: Outcome)
    requires Global(db) && Holds(db, t, th) && (th.Written? || th.Reusing?)
    ensures Sound(db, t, CommitIn(db, th, outcome))
  {
    if th.Written? { CommitWrittenSound(db, t, th, outcome); } else { CommitReusingSound(db, t, th, outcome); }
  }

  lemma LateIssuerMoveSound(db: Db, t: ThreadId, th: Thread, m: Move)
    requires Global(db) && Holds(db, t, th) && Can(db, t, th, m) && Issuer(th)
    requires m.Abandon? || m.Finalize? || m.Revoke? || m.Crash?
    ensures Sound(db, t, MoveIn(db, t, th, m))
  {
    match m
    case Abandon => AbandonSound(db, t, th);
    case Finalize(outcome) => FinalizeSound(db, t, th, outcome);
    case Revoke(outcome) => CompensateSound(db, t, th, outcome);
    case Crash => EndSound(db, t, th);
  }

  /** What InvalidateBinding does to rows, intents and keys. */
  lemma InvalidatorStatementSound(db: Db, t: ThreadId, th: Thread, m: Move)
    requires Global(db) && Holds(db, t, th) && Can(db, t, th, m) && Invalidating(th)
    requires m.Stage? || m.Revoke? || m.ListRows? || m.MarkRows? || m.DeleteRows?
    ensures Sound(db, t, MoveIn(db, t, th, m))
  {
    match m
    case Stage(id, outcome) => StageListedSound(db, t, th, id, outcome);
    case Revoke(outcome) => RevokeListedSound(db, t, th, outcome);
    case ListRows(keys) => ListRowsSound(db, t, th, keys);
    case MarkRows(outcome) => MarkRowsSound(db, t, th, outcome);
    case DeleteRows(outcome) => DeleteRowsSound(db, t, th, outcome);
  }

  /** Where it ends or changes hands. */
  lemma InvalidatorEndSound(db: Db, t: ThreadId, th: Thread, m: Move)
    requires Global(db) && Holds(db, t, th) && Can(db, t, th, m) && Invalidating(th)
    requires m.Commit? || m.ListFails? || m.InvalidateAgain? || m.Crash? || m.LoseTransaction?
    ensures Sound(db, t, MoveIn(db, t, th, m))
  {
    match m
    case Commit(outcome) => ConcludeSound(db, t, th, outcome);
    case ListFails => SameDb(db, t);
    case InvalidateAgain => SameDb(db, t);
    case Crash => EndSound(db, t, th);
    case LoseTransaction => LoseTransactionSound(db, t, th);
  }

  lemma ConfirmerMoveSound(db: Db, t: ThreadId, th: Thread, m: Move)
    requires Global(db) && Holds(db, t, th) && Can(db, t, th, m) && th.Confirming?
    ensures Sound(db, t, MoveIn(db, t, th, m))
  {
    match m
    case PassGate => PassGateSound(db, t, th);
    case Commit(outcome) => CommitConfirmingSound(db, t, th, outcome);
    case Crash => EndSound(db, t, th);
  }

  lemma WorkerMoveSound(db: Db, t: ThreadId, th: Thread, m: Move)
    requires Global(db) && Holds(db, t, th) && Can(db, t, th, m)
    requires th.Recovering? || th.RecoveringOne? || th.Releasing?
    ensures Sound(db, t, MoveIn(db, t, th, m))
  {
    match m
    case Revoke(outcome) => RecoverOneSound(db, t, th, outcome);
    case Resolve(outcome) => ResolveSound(db, t, th, outcome);
    case TakeReady => TakeReadySound(db, t, th);
    case Release(outcome) => ReleaseSound(db, t, th, outcome);
    case Finish => SameDb(db, t);
    case Crash => EndSound(db, t, th);
  }

  lemma InvalidatorMoveSound(db: Db, t: ThreadId, th: Thread, m: Move)
    requires Global(db) && Holds(db, t, th) && Can(db, t, th, m) && Invalidating(th)
    ensures Sound(db, t, MoveIn(db, t, th, m))
  {
    if m.Stage? || m.Revoke? || m.ListRows? || m.MarkRows? || m.DeleteRows? { InvalidatorStatementSound(db, t, th, m); }
    else { InvalidatorEndSound(db, t, th, m); }
  }

  lemma IssuerMoveSound(db: Db, t: ThreadId, th: Thread, m: Move)
    requires Global(db) && Holds(db, t, th) && Can(db, t, th, m) && Issuer(th) && !Alone(m)
    ensures Sound(db, t, MoveIn(db, t, th, m))
  {
    if m.Commit? { CommitIssuerSound(db, t, th, m.outcome); }
    else if m.Abandon? || m.Finalize? || m.Revoke? || m.Crash? { LateIssuerMoveSound(db, t, th, m); }
    else { EarlyIssuerMoveSound(db, t, th, m); }
  }

  /** A thread without a transaction either goes on or crashes. */
  lemma LonerMoveSound(db: Db, t: ThreadId, th: Thread, m: Move)
    requires Global(db) && Holds(db, t, th) && Can(db, t, th, m)
    requires Alone(m) || th.IssuingAlone? || th.IssuedAlone? || th.UntrackedAlone?
    ensures Sound(db, t, MoveIn(db, t, th, m))
  {
    if Alone(m) { AloneSound(db, t, th, m); } else {
      EndSound(db, t, th);
      assert MoveIn(db, t, th, m) == After(Ended(db, th), None);
    }
  }

  lemma LockedMoveSound(db: Db, t: ThreadId, th: Thread, m: Move)
    requires Global(db) && Holds(db, t, th) && Can(db, t, th, m) && !Alone(m)
    requires Invalidating(th) || th.Confirming? || Issuer(th)
    ensures Sound(db, t, MoveIn(db, t, th, m))
  {
    if Invalidating(th) { InvalidatorMoveSound(db, t, th, m); }
    else if th.Confirming? { ConfirmerMoveSound(db, t, th, m); }
    else { IssuerMoveSound(db, t, th, m); }
  }

  lemma MoveSound(db: Db, t: ThreadId, th: Thread, m: Move)
    requires Global(db) && Holds(db, t, th) && Can(db, t, th, m)
    ensures Sound(db, t, MoveIn(db, t, th, m))
  {
    if Alone(m) || th.IssuingAlone? || th.IssuedAlone? || th.UntrackedAlone? { LonerMoveSound(db, t, th, m); }
    else if th.Recovering? || th.RecoveringOne? || th.Releasing? { WorkerMoveSound(db, t, th, m); }
    else { LockedMoveSound(db, t, th, m); }
  }

  lemma LockSound(db: Db, t: ThreadId, b: Binding)
    requires Global(db) && b in db.creds && b !in db.locks
    ensures var db' := db.(locks := db.locks[b := t]); Global(db') && Guarantee(db, db', t)
  {
    var db' := db.(locks := db.locks[b := t]);
    forall k ensures KeyOk(db', k) && KeyStep(db, db', t, k) { assert KeyOk(db, k); }
    forall s ensures RowOk(db', s) && RowStep(db, db', t, s) { assert RowOk(db, s); }
    forall i ensures IdOk(db', i) { assert IdOk(db, i); }
  }

  lemma LockingSound(db: Db, t: ThreadId, r: Request)
    requires Global(db) && CanBegin(db, t, r) && (r.GetAuthKey? || r.ControlOperation? || r.Validate?)
    ensures Sound(db, t, BeginIn(db, t, r))
  {
    match r
    case GetAuthKey(s) => LockSound(db, t, s.binding);
    case ControlOperation(b, _) => LockSound(db, t, b);
    case Validate(b) => LockSound(db, t, b);
  }

  lemma ConfirmingSound(db: Db, t: ThreadId, d: Delivery)
    requires Global(db) && CanBegin(db, t, ConfirmDeliverable(d))
    ensures Sound(db, t, BeginIn(db, t, ConfirmDeliverable(d)))
  {
    LockSound(db, t, db.info[d.key].slot.binding);
  }

  lemma BeginSound(db: Db, t: ThreadId, r: Request)
    requires Global(db) && CanBegin(db, t, r)
    ensures Sound(db, t, BeginIn(db, t, r))
  {
    match r
    case ConfirmDeliverable(d) => ConfirmingSound(db, t, d);
    case InvalidateUnlocked(_) => SameDb(db, t);
    case RetryPending(token, keys, at) => ClaimSound(db, t, token, keys, at);
    case _ => LockingSound(db, t, r);
  }

  lemma ElapseSound(db: Db, t: ThreadId, seconds: nat)
    requires Global(db)
    ensures var db' := db.(now := db.now + seconds); Global(db') && Guarantee(db, db', t)
  {
    var db' := db.(now := db.now + seconds);
    forall k ensures KeyOk(db', k) && KeyStep(db, db', t, k) { assert KeyOk(db, k); }
    forall s ensures RowOk(db', s) && RowStep(db, db', t, s) { assert RowOk(db, s); }
    forall i ensures IdOk(db', i) { assert IdOk(db, i); }
  }

  lemma DeleteExpiredSound(db: Db, t: ThreadId, before: nat)
    requires Global(db) && before <= db.now
    ensures var db' := db.(rows := DropExpired(db, before)); Global(db') && Guarantee(db, db', t)
  {
    var db' := db.(rows := DropExpired(db, before));
    forall k ensures KeyOk(db', k) && KeyStep(db, db', t, k) {
      assert KeyOk(db, k);
      if k in db.info { assert RowOk(db, db.info[k].slot); }
    }
    forall s ensures RowOk(db', s) && RowStep(db, db', t, s) { assert RowOk(db, s); }
    forall i ensures IdOk(db', i) { assert IdOk(db, i); }
  }

  lemma DeleteExpiredRowSound(db: Db, t: ThreadId, s: Slot)
    requires Global(db) && s in db.rows && Expired(db, db.rows[s].key)
    ensures var db' := db.(rows := db.rows - {s}); Global(db') && Guarantee(db, db', t)
  {
    var db' := db.(rows := db.rows - {s});
    forall k ensures KeyOk(db', k) && KeyStep(db, db', t, k) {
      assert KeyOk(db, k);
      if k in db.info { assert RowOk(db, db.info[k].slot); }
    }
    forall r ensures RowOk(db', r) && RowStep(db, db', t, r) { assert RowOk(db, r); }
    forall i ensures IdOk(db', i) { assert IdOk(db, i); }
  }

  lemma QuietSound(db: Db, t: ThreadId, e: Event)
    requires Global(db) && CanHappen(db, e) && (e.Bind? || e.Revalidate?)
    ensures Global(HappenTo(db, e)) && Guarantee(db, HappenTo(db, e), t)
  {
    var db' := HappenTo(db, e);
    forall k ensures KeyOk(db', k) && KeyStep(db, db', t, k) { assert KeyOk(db, k); }
    forall s ensures RowOk(db', s) && RowStep(db, db', t, s) { assert RowOk(db, s); }
    forall i ensures IdOk(db', i) { assert IdOk(db, i); }
  }

  lemma HappenSound(db: Db, t: ThreadId, e: Event)
    requires Global(db) && CanHappen(db, e)
    ensures Global(HappenTo(db, e)) && Guarantee(db, HappenTo(db, e), t)
  {
    match e
    case Elapse(seconds) => ElapseSound(db, t, seconds);
    case Bind(_, _) => QuietSound(db, t, e);
    case Revalidate(_, _) => QuietSound(db, t, e);
    case DeleteExpired(before) => DeleteExpiredSound(db, t, before);
    case DeleteExpiredRow(s) => DeleteExpiredRowSound(db, t, s);
  }

  /** Some thread name that took part in the step: the actor, or anyone when nobody acted. */
  function ActorOf(a: Action): ThreadId {
    match a
    case Happen(_) => 0
    case Begin(t, _) => t
    case Act(t, _) => t
  }

  lemma OthersHold(w: World, db': Db, t: ThreadId, u: ThreadId)
    requires Inv(w) && Global(db') && Guarantee(w.db, db', t) && u in w.threads && u != t
    ensures Holds(db', u, w.threads[u])
  {
    Stable(w.db, db', t, u, w.threads[u]);
  }

  lemma HappenKeepsInv(w: World, e: Event)
    requires Inv(w) && Enabled(w, Happen(e))
    ensures Inv(Apply(w, Happen(e))) && Guarantee(w.db, HappenTo(w.db, e), 0)
  {
    HappenSound(w.db, 0, e);
    forall u | u in w.threads ensures Holds(HappenTo(w.db, e), u, w.threads[u]) {
      HappenSound(w.db, u + 1, e);
      OthersHold(w, HappenTo(w.db, e), u + 1, u);
    }
  }

  lemma BeginKeepsInv(w: World, t: ThreadId, r: Request)
    requires Inv(w) && Enabled(w, Begin(t, r))
    ensures Inv(Apply(w, Begin(t, r))) && Guarantee(w.db, BeginIn(w.db, t, r).db, t)
  {
    BeginSound(w.db, t, r);
    forall u | u in w.threads ensures Holds(BeginIn(w.db, t, r).db, u, w.threads[u]) {
      OthersHold(w, BeginIn(w.db, t, r).db, t, u);
    }
  }

  lemma MoveKeepsInv(w: World, t: ThreadId, m: Move)
    requires Inv(w) && Enabled(w, Act(t, m))
    ensures Inv(Apply(w, Act(t, m))) && Guarantee(w.db, MoveIn(w.db, t, w.threads[t], m).db, t)
  {
    var after := MoveIn(w.db, t, w.threads[t], m);
    MoveSound(w.db, t, w.threads[t], m);
    forall u | u in w.threads && u != t ensures Holds(after.db, u, w.threads[u]) {
      OthersHold(w, after.db, t, u);
    }
  }

  /** One step, any step: the invariant survives and the step stays within its guarantee. */
  lemma StepKeepsInv(w: World, a: Action)
    requires Inv(w) && Enabled(w, a)
    ensures Inv(Apply(w, a)) && Guarantee(w.db, Apply(w, a).db, ActorOf(a))
  {
    match a
    case Happen(e) => HappenKeepsInv(w, e);
    case Begin(t, r) => BeginKeepsInv(w, t, r);
    case Act(t, m) => MoveKeepsInv(w, t, m);
  }

  lemma {:induction false} RunKeepsInv(w: World, actions: seq<Action>)
    requires Inv(w) && Runs(w, actions)
    ensures Inv(Final(w, actions))
    decreases |actions|
  {
    if |actions| > 0 {
      StepKeepsInv(w, actions[0]);
      RunKeepsInv(Apply(w, actions[0]), actions[1..]);
    }
  }

  lemma {:induction false} RunsThen(w: World, xs: seq<Action>, ys: seq<Action>)
    requires Runs(w, xs) && Runs(Final(w, xs), ys)
    ensures Runs(w, xs + ys) && Final(w, xs + ys) == Final(Final(w, xs), ys)
    decreases |xs|
  {
    if |xs| == 0 {
      assert xs + ys == ys;
    } else {
      RunsThen(Apply(w, xs[0]), xs[1..], ys);
      assert (xs + ys)[0] == xs[0] && (xs + ys)[1..] == xs[1..] + ys;
    }
  }

  lemma EmptyWorldInv()
    ensures Inv(EMPTY_WORLD)
  {
    forall k ensures KeyOk(EMPTY_DB, k) { }
    forall s ensures RowOk(EMPTY_DB, s) { }
    forall i ensures IdOk(EMPTY_DB, i) { }
  }

  // ---------- Ready is final ----------

  /** The key's intent went ready: it stays ready, and it is gone only because upstream confirmed the revocation. */
  ghost predicate WentReady(db: Db, k: Key) {
    k in db.closed && (k in db.intents ==> db.intents[k].state == Ready) && (k in db.intents || k in db.acked)
  }

  lemma StepKeepsReady(w: World, a: Action, k: Key)
    requires Inv(w) && Enabled(w, a) && WentReady(w.db, k)
    ensures WentReady(Apply(w, a).db, k)
  {
    StepKeepsInv(w, a);
    assert KeyStep(w.db, Apply(w, a).db, ActorOf(a), k);
  }

  lemma {:induction false} WentReadyForGood(w: World, actions: seq<Action>, k: Key)
    requires Inv(w) && Runs(w, actions) && WentReady(w.db, k)
    ensures WentReady(Final(w, actions).db, k)
    decreases |actions|
  {
    if |actions| > 0 {
      StepKeepsReady(w, actions[0], k);
      StepKeepsInv(w, actions[0]);
      WentReadyForGood(Apply(w, actions[0]), actions[1..], k);
    }
  }

  lemma ReadyIsFinal(w: World, actions: seq<Action>, k: Key)
    requires Inv(w) && Runs(w, actions) && IsReady(w.db, k)
    ensures var db' := Final(w, actions).db;
      (k in db'.intents ==> db'.intents[k].state == Ready) && (k !in db'.intents ==> k in db'.acked)
  {
    assert KeyOk(w.db, k);
    WentReadyForGood(w, actions, k);
  }

  // ---------- Closed keys ----------

  /** Once the issuing transaction of a key is over, no thread is on the way to commit its row. */
  lemma ClosedKeyIsNotWritten(w: World, key: Key)
    requires Inv(w) && key in w.db.closed
    ensures forall u :: u in w.threads && (w.threads[u].Staged? || w.threads[u].Written?) ==> w.threads[u].key != key
  {
    forall u | u in w.threads && (w.threads[u].Staged? || w.threads[u].Written?) ensures w.threads[u].key != key {
      assert Holds(w.db, u, w.threads[u]);
    }
  }

}
