/** What a committed authorization fence guarantees about keys delivered before and after it. */
module SagaFences {
  import opened Authorization
  import opened SagaState
  import opened SagaSteps
  import opened SagaInvariant
  import opened SagaTheorems
  import opened SagaTracking

  /** The operation commits: InvalidateBinding has not failed and the row lock is still held. */
  ghost predicate CommitsControl(w: World, a: Action, b: Binding, e: Effect) {
    && Enabled(w, a) && a.Act? && a.move.Commit? && a.move.outcome != Failed
    && var th := w.threads[a.t];
       th.Concluding? && th.cause == Cause(b, true, Control(e)) && th.result != Failure
  }

  ghost predicate CommitsFence(w: World, a: Action, b: Binding, c: Consumer, f: Fence) {
    CommitsControl(w, a, b, ApplyFence(c, f))
  }

  /** Nothing is left of the key but its revocation. */
  ghost predicate Doomed(db: Db, k: Key) {
    k in db.acked || Expired(db, k) || IsReady(db, k)
  }

  /** A key of binding b that a request was given, or that a thread has committed or read and is about to give out. */
  ghost predicate GivenOut(w: World, k: Key, b: Binding) {
    && k in w.db.info && w.db.info[k].slot.binding == b
    && (k in w.db.returned || exists u :: u in w.threads && HandsOut(w.threads[u], k))
  }

  /** Whatever the operation, when it commits every key given out before for the binding is dead or has a ready intent. */
  lemma ControlRevokesEarlierKeys(w: World, a: Action, b: Binding, e: Effect)
    requires Inv(w) && AllTracked(w) && CommitsControl(w, a, b, e)
    ensures forall k :: GivenOut(w, k, b) ==> Doomed(Apply(w, a).db, k)
  {
    var db := w.db;
    assert Holds(db, a.t, w.threads[a.t]);
    assert Apply(w, a).db == Unlock(ApplyEffect(db, b, e), b);
    forall k | GivenOut(w, k, b) ensures Doomed(Apply(w, a).db, k) {
      assert KeyOk(db, k) && KeyTracked(w, k);
      if InRow(db, k) {
        assert Excused(db, db.rows[db.info[k].slot].key);
      }
    }
  }

  /** When a fence commits, it is in force, and every key given out before for that binding is dead or has a ready intent. */
  lemma FenceRevokesEarlierKeys(w: World, a: Action, b: Binding, c: Consumer, f: Fence)
    requires Inv(w) && AllTracked(w) && CommitsFence(w, a, b, c, f)
    ensures Leq(f, FenceOf(Apply(w, a).db, b, c))
    ensures forall k :: GivenOut(w, k, b) ==> Doomed(Apply(w, a).db, k)
  {
    ControlRevokesEarlierKeys(w, a, b, ApplyFence(c, f));
    assert Holds(w.db, a.t, w.threads[a.t]);
    assert Apply(w, a).db == Unlock(ApplyEffect(w.db, b, ApplyFence(c, f)), b);
  }

  lemma {:induction false} DoomedStays(w: World, actions: seq<Action>, k: Key)
    requires Inv(w) && Runs(w, actions) && Doomed(w.db, k)
    ensures Doomed(Final(w, actions).db, k)
    decreases |actions|
  {
    if |actions| > 0 {
      StepKeepsInv(w, actions[0]);
      assert KeyStep(w.db, Apply(w, actions[0]).db, ActorOf(actions[0]), k);
      DoomedStays(Apply(w, actions[0]), actions[1..], k);
    }
  }

  // ---------- Deliveries ----------

  /** The commit that lets the response with the key go out. */
  ghost predicate Delivers(w: World, a: Action, d: Delivery) {
    && Enabled(w, a) && a.Act? && a.move == Commit(Done) && w.threads[a.t].Confirming? && w.threads[a.t].delivery == d
  }

  /** What a confirmation has read under the row lock is still so at its commit. */
  lemma ConfirmationHolds(w: World, a: Action, d: Delivery)
    requires Inv(w) && Delivers(w, a, d)
    ensures (d.key in w.db.returned || Expired(w.db, d.key)) && d.key in w.db.info
    ensures var b := w.db.info[d.key].slot.binding;
      && Clears(d.versions, FenceOf(w.db, b, d.consumer))
      && b in w.db.creds && w.db.creds[b] == Credential(d.versions.generation, true)
  {
    assert Holds(w.db, a.t, w.threads[a.t]);
  }

  /**
   In every run from the empty database: the ticket was checked several statements before the commit of
   ConfirmDeliverable. At the commit it still clears the fence in force then and names the generation in
   force then, and the credential is still active, because the row lock has been held all the time.
   */
  lemma TicketStillHoldsAtDelivery(actions: seq<Action>, a: Action, d: Delivery)
    requires Runs(EMPTY_WORLD, actions) && Delivers(Final(EMPTY_WORLD, actions), a, d)
    ensures var db := Final(EMPTY_WORLD, actions).db;
      && (d.key in db.returned || Expired(db, d.key)) && d.key in db.info
      && Clears(d.versions, FenceOf(db, db.info[d.key].slot.binding, d.consumer))
      && db.info[d.key].slot.binding in db.creds
      && db.creds[db.info[d.key].slot.binding] == Credential(d.versions.generation, true)
  {
    EmptyWorldInv();
    RunKeepsInv(EMPTY_WORLD, actions);
    ConfirmationHolds(Final(EMPTY_WORLD, actions), a, d);
  }

  /** The step raised fences at most. */
  ghost predicate FencesRise(db: Db, db': Db) {
    forall b, c :: Leq(FenceOf(db, b, c), FenceOf(db', b, c))
  }

  lemma EffectRaises(db: Db, b: Binding, e: Effect)
    requires b in db.creds
    ensures FencesRise(db, Unlock(ApplyEffect(db, b, e), b)) && Unlock(ApplyEffect(db, b, e), b).delivered == db.delivered
  {
    match e
    case ApplyFence(c, f) => JoinIsLeastUpperBound(FenceOf(db, b, c), f);
    case Refresh =>
    case Replace =>
    case Delete =>
  }

  lemma AttentionRaises(db: Db, th: Thread, outcome: Outcome)
    requires th.Concluding? && !th.cause.purpose.Control?
    ensures SameOutside(db, ConcludeIn(db, th, outcome).db)
  {
    if th.cause.binding in db.creds {
      var written := db.(creds := db.creds[th.cause.binding := db.creds[th.cause.binding].(active := false)]);
      assert SameOutside(written, Ended(written, th));
    }
  }

  lemma ConcludeRaises(db: Db, th: Thread, outcome: Outcome)
    requires th.Concluding?
    ensures var db' := ConcludeIn(db, th, outcome).db; FencesRise(db, db') && db'.delivered == db.delivered
  {
    var b := th.cause.binding;
    if !th.cause.purpose.Control? { AttentionRaises(db, th, outcome); }
    else if th.cause.held && outcome != Failed && b in db.creds && th.result != Failure {
      EffectRaises(db, b, th.cause.purpose.effect);
    }
  }

  lemma CommitRaises(db: Db, t: ThreadId, th: Thread, outcome: Outcome)
    requires Can(db, t, th, Commit(outcome))
    ensures var db' := CommitIn(db, th, outcome).db;
      && FencesRise(db, db')
      && db'.delivered == (if th.Confirming? && outcome == Done then db.delivered + {th.delivery} else db.delivered)
  {
    if th.Concluding? { ConcludeRaises(db, th, outcome); }
  }

  lemma EndingRaises(db: Db, t: ThreadId, th: Thread, m: Move)
    requires Can(db, t, th, m) && Ends(m) && !Alone(m)
    ensures var db' := MoveIn(db, t, th, m).db; db'.fences == db.fences && db'.delivered == db.delivered
  {
    assert SameOutside(db, Ended(db, th));
  }

  lemma AloneRaises(db: Db, t: ThreadId, th: Thread, m: Move)
    requires Can(db, t, th, m) && Alone(m)
    ensures var db' := MoveIn(db, t, th, m).db; db'.fences == db.fences && db'.delivered == db.delivered
  {
    assert SameOutside(db, Ended(db, th));
  }

  lemma MoveRaises(db: Db, t: ThreadId, th: Thread, m: Move)
    requires Can(db, t, th, m) && !m.Commit?
    ensures var db' := MoveIn(db, t, th, m).db; db'.fences == db.fences && db'.delivered == db.delivered
  {
    if Alone(m) { AloneRaises(db, t, th, m); }
    else if Ends(m) { EndingRaises(db, t, th, m); }
    else if !m.UpstreamIssues? && !m.Revoke? {
      assert SameOutside(db, MoveIn(db, t, th, m).db) by {
        match m
        case Stage(_, _) =>
        case Resolve(_) =>
        case Finalize(_) =>
        case MarkRows(_) =>
        case DeleteRows(_) =>
        case Release(_) =>
        case _ =>
      }
    }
  }

  lemma RequestRaises(db: Db, t: ThreadId, r: Request)
    requires CanBegin(db, t, r)
    ensures BeginIn(db, t, r).db.fences == db.fences && BeginIn(db, t, r).db.delivered == db.delivered
  {
  }

  lemma EventRaises(db: Db, e: Event)
    requires CanHappen(db, e)
    ensures HappenTo(db, e).fences == db.fences && HappenTo(db, e).delivered == db.delivered
  {
  }

  /** One step never lowers a fence, and delivers nothing but by the commit of a ConfirmDeliverable. */
  lemma StepRaises(w: World, a: Action)
    requires Enabled(w, a)
    ensures FencesRise(w.db, Apply(w, a).db)
    ensures forall d :: d in Apply(w, a).db.delivered && d !in w.db.delivered ==> Delivers(w, a, d)
  {
    match a
    case Happen(e) => EventRaises(w.db, e);
    case Begin(t, r) => RequestRaises(w.db, t, r);
    case Act(t, m) => if m.Commit? { CommitRaises(w.db, t, w.threads[t], m.outcome); } else { MoveRaises(w.db, t, w.threads[t], m); }
  }

  lemma DeliveryClears(w: World, a: Action, b: Binding, c: Consumer, f: Fence, d: Delivery)
    requires Inv(w) && Delivers(w, a, d) && Leq(f, FenceOf(w.db, b, c))
    requires d.consumer == c && d.key in w.db.info && w.db.info[d.key].slot.binding == b
    ensures Clears(d.versions, f)
  {
    ConfirmationHolds(w, a, d);
    ClearsAntitone(d.versions, f, FenceOf(w.db, b, c));
  }

  lemma StillBelow(w: World, a: Action, b: Binding, c: Consumer, f: Fence)
    requires Enabled(w, a) && Leq(f, FenceOf(w.db, b, c))
    ensures Leq(f, FenceOf(Apply(w, a).db, b, c))
  {
    StepRaises(w, a);
  }

  lemma {:induction false} StaysBelow(w: World, actions: seq<Action>, b: Binding, c: Consumer, f: Fence)
    requires Runs(w, actions) && Leq(f, FenceOf(w.db, b, c))
    ensures Leq(f, FenceOf(Final(w, actions).db, b, c))
    decreases |actions|
  {
    if |actions| > 0 {
      StillBelow(w, actions[0], b, c, f);
      StaysBelow(Apply(w, actions[0]), actions[1..], b, c, f);
    }
  }

  /** However a run goes on, no delivery goes to a ticket below a fence that was in force at its start. */
  lemma NoDeliveryBelowFence(w: World, actions: seq<Action>, a: Action, b: Binding, c: Consumer, f: Fence, d: Delivery)
    requires Inv(w) && Runs(w, actions) && Leq(f, FenceOf(w.db, b, c))
    requires Delivers(Final(w, actions), a, d) && d.consumer == c
    requires d.key in Final(w, actions).db.info && Final(w, actions).db.info[d.key].slot.binding == b
    ensures Clears(d.versions, f)
  {
    RunKeepsInv(w, actions);
    StaysBelow(w, actions, b, c, f);
    DeliveryClears(Final(w, actions), a, b, c, f, d);
  }

  /** Whenever a key of binding b is delivered to consumer c, the ticket clears f. */
  ghost predicate DeliversAbove(w: World, b: Binding, c: Consumer, f: Fence) {
    forall a, d :: Delivers(w, a, d) && d.consumer == c && d.key in w.db.info && w.db.info[d.key].slot.binding == b ==>
      Clears(d.versions, f)
  }

  /**
   A fence is final in both directions. However the run goes on after its commit, every key given out before
   it stays dead or under revocation, and no delivery goes to a ticket below it.
   */
  lemma FenceIsFinal(w: World, a: Action, b: Binding, c: Consumer, f: Fence, actions: seq<Action>)
    requires Inv(w) && AllTracked(w) && CommitsFence(w, a, b, c, f)
    requires Runs(Apply(w, a), actions)
    ensures forall k :: GivenOut(w, k, b) ==> Doomed(Final(Apply(w, a), actions).db, k)
    ensures DeliversAbove(Final(Apply(w, a), actions), b, c, f)
  {
    var w' := Apply(w, a);
    FenceRevokesEarlierKeys(w, a, b, c, f);
    StepKeepsInv(w, a);
    forall k | GivenOut(w, k, b) ensures Doomed(Final(w', actions).db, k) {
      DoomedStays(w', actions, k);
    }
    var end := Final(w', actions);
    forall x, d | Delivers(end, x, d) && d.consumer == c && d.key in end.db.info && end.db.info[d.key].slot.binding == b
      ensures Clears(d.versions, f)
    {
      NoDeliveryBelowFence(w', actions, x, b, c, f, d);
    }
  }

}
