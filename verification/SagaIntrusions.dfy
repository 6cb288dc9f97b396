/**
 When a key is delivered although a row or an intent of its binding is pending: exactly after a late statement
 without the row lock, or a second count that does not see what was hidden since the first.
 */
module SagaIntrusions {
  import opened SagaState
  import opened SagaSteps
  import opened SagaInvariant
  import opened SagaTheorems
  import opened SagaLosses
  import opened SagaFences
  import opened SagaDelivery

  // ---------- At the commit ----------

  /** A confirmation that stands before its commit has nothing pending. */
  ghost predicate ThreadSettled(db: Db, th: Thread) {
    th.Confirming? && th.gate == NothingPending ==> !HasPendingRow(db.rows, th.binding) && !HasIntent(db, th.binding)
  }

  ghost predicate Settled(w: World) {
    forall u :: u in w.threads ==> ThreadSettled(w.db, w.threads[u])
  }

  /** A key can be delivered now although something of its binding is pending. */
  ghost predicate DeliversPending(w: World) {
    exists a, d :: Delivers(w, a, d)
      && (HasPendingRow(w.db.rows, w.threads[a.t].binding) || HasIntent(w.db, w.threads[a.t].binding))
  }

  lemma SettledExactly(w: World)
    ensures Settled(w) <==> !DeliversPending(w)
  {
    forall u | u in w.threads && !ThreadSettled(w.db, w.threads[u]) ensures DeliversPending(w) {
      assert Delivers(w, Act(u, Commit(Done)), w.threads[u].delivery);
    }
  }

  // ---------- The statements that slip in ----------

  /** The confirmation counts the intents, but since it counted the rows one has been hidden. */
  ghost predicate PassesBlindly(w: World, th: Thread, m: Move) {
    m.PassGate? && th.Confirming? && th.gate == NoRowPending && HasPendingRow(w.db.rows, th.binding)
  }

  ghost predicate Intrudes(w: World, a: Action) {
    && a.Act? && a.t in w.threads
    && var th := w.threads[a.t];
       StagesTooLate(w, th, a.move) || HidesTooLate(w, th, a.move, NothingPending) || PassesBlindly(w, th, a.move)
  }

  ghost predicate NoneIntrudes(w: World, actions: seq<Action>)
    decreases |actions|
  {
    |actions| > 0 ==> !Intrudes(w, actions[0]) && NoneIntrudes(Apply(w, actions[0]), actions[1..])
  }

  lemma ActorSettled(w: World, t: ThreadId, m: Move)
    requires Enabled(w, Act(t, m)) && !Intrudes(w, Act(t, m)) && MoveIn(w.db, t, w.threads[t], m).thread.Some?
    ensures ThreadSettled(MoveIn(w.db, t, w.threads[t], m).db, MoveIn(w.db, t, w.threads[t], m).thread.value)
  {
    if !m.PassGate? { OnlyGatesConfirm(w.db, t, w.threads[t], m); }
  }

  lemma MoveKeepsSettled(w: World, t: ThreadId, m: Move)
    requires Inv(w) && Settled(w) && Enabled(w, Act(t, m)) && !Intrudes(w, Act(t, m))
    ensures Settled(Apply(w, Act(t, m)))
  {
    var after := MoveIn(w.db, t, w.threads[t], m);
    if after.thread.Some? { ActorSettled(w, t, m); }
    forall u | u in w.threads && u != t ensures ThreadSettled(after.db, w.threads[u]) {
      var th := w.threads[u];
      if th.Confirming? && th.gate == NothingPending { MoveKeepsOtherCounts(w, t, m, u); }
    }
  }

  lemma StepKeepsSettled(w: World, a: Action)
    requires Inv(w) && Settled(w) && Enabled(w, a) && !Intrudes(w, a)
    ensures Settled(Apply(w, a))
  {
    match a
    case Happen(e) =>
      forall u | u in w.threads ensures ThreadSettled(HappenTo(w.db, e), w.threads[u]) {
        var th := w.threads[u];
        if th.Confirming? && th.gate == NothingPending { HappenKeepsCount(w, e, u); }
      }
    case Begin(t, r) =>
      forall u | u in w.threads ensures ThreadSettled(BeginIn(w.db, t, r).db, w.threads[u]) {
        var th := w.threads[u];
        if th.Confirming? && th.gate == NothingPending { BeginKeepsCount(w, t, r, u); }
      }
    case Act(t, m) => MoveKeepsSettled(w, t, m);
  }

  lemma UnsettledAt(w: World, b: Binding)
    requires HasCounted(w, b, NothingPending) && (HasPendingRow(w.db.rows, b) || HasIntent(w.db, b))
    ensures !Settled(w)
  {
    var u :| u in w.threads && w.threads[u].Confirming? && w.threads[u].binding == b && w.threads[u].gate == NothingPending;
    assert !ThreadSettled(w.db, w.threads[u]);
  }

  lemma BlindPassUnsettles(w: World, t: ThreadId, m: Move)
    requires Enabled(w, Act(t, m)) && PassesBlindly(w, w.threads[t], m)
    ensures !Settled(Apply(w, Act(t, m)))
  {
    assert !ThreadSettled(w.db, Apply(w, Act(t, m)).threads[t]);
  }

  lemma IntrusionUnsettles(w: World, t: ThreadId, m: Move)
    requires Inv(w) && Enabled(w, Act(t, m)) && Intrudes(w, Act(t, m))
    ensures !Settled(Apply(w, Act(t, m)))
  {
    var th := w.threads[t];
    if PassesBlindly(w, th, m) { BlindPassUnsettles(w, t, m); }
    else if m.MarkRows? {
      MarkShows(w.db, th, m.outcome);
      StillCounted(w, t, m, th.cause.binding, NothingPending);
      UnsettledAt(Apply(w, Act(t, m)), th.cause.binding);
    } else {
      LateStageShows(w, t, m);
      StillCounted(w, t, m, StagedBinding(th).value, NothingPending);
      UnsettledAt(Apply(w, Act(t, m)), StagedBinding(th).value);
    }
  }

  // ---------- Runs ----------

  lemma {:induction false} RunKeepsSettled(w: World, actions: seq<Action>)
    requires Inv(w) && Settled(w) && Runs(w, actions) && NoneIntrudes(w, actions)
    ensures Settled(Final(w, actions))
    decreases |actions|
  {
    if |actions| > 0 {
      StepKeepsInv(w, actions[0]);
      StepKeepsSettled(w, actions[0]);
      RunKeepsSettled(Apply(w, actions[0]), actions[1..]);
    }
  }

  /** However the run goes on without intrusion, nothing is pending when a key is delivered. */
  ghost predicate NeverDeliversPending(w: World) {
    forall rest :: Runs(w, rest) && NoneIntrudes(w, rest) ==> !DeliversPending(Final(w, rest))
  }

  lemma SettledNeverDeliversPending(w: World)
    requires Inv(w)
    ensures Settled(w) <==> NeverDeliversPending(w)
  {
    if Settled(w) {
      forall rest | Runs(w, rest) && NoneIntrudes(w, rest) ensures !DeliversPending(Final(w, rest)) {
        RunKeepsSettled(w, rest);
        SettledExactly(Final(w, rest));
      }
    } else {
      SettledExactly(w);
      assert Runs(w, []) && NoneIntrudes(w, []) && Final(w, []) == w;
    }
  }

  /** A step intrudes exactly when some continuation of it delivers a key with something pending. */
  lemma IntrudesExactly(w: World, a: Action)
    requires Inv(w) && Settled(w) && Enabled(w, a)
    ensures !Intrudes(w, a) <==> NeverDeliversPending(Apply(w, a))
  {
    StepKeepsInv(w, a);
    SettledNeverDeliversPending(Apply(w, a));
    if Intrudes(w, a) { IntrusionUnsettles(w, a.t, a.move); } else { StepKeepsSettled(w, a); }
  }

  /** No prefix of the run can be continued to a delivery with something pending. */
  ghost predicate NeverDeliversPendingAlong(w: World, actions: seq<Action>)
    decreases |actions|
  {
    NeverDeliversPending(w) && (|actions| > 0 ==> NeverDeliversPendingAlong(Apply(w, actions[0]), actions[1..]))
  }

  lemma {:induction false} SettledAlong(w: World, actions: seq<Action>)
    requires Inv(w) && Settled(w) && Runs(w, actions)
    ensures NoneIntrudes(w, actions) <==> NeverDeliversPendingAlong(w, actions)
    decreases |actions|
  {
    SettledNeverDeliversPending(w);
    if |actions| > 0 {
      IntrudesExactly(w, actions[0]);
      if !Intrudes(w, actions[0]) {
        StepKeepsInv(w, actions[0]);
        StepKeepsSettled(w, actions[0]);
        SettledAlong(Apply(w, actions[0]), actions[1..]);
      }
    }
  }

  /** For every run from the start: none of its statements intrudes exactly when no prefix of it leads to such a delivery. */
  lemma NothingIsPendingExactlyWithoutIntrusion(actions: seq<Action>)
    requires Runs(EMPTY_WORLD, actions)
    ensures NoneIntrudes(EMPTY_WORLD, actions) <==> NeverDeliversPendingAlong(EMPTY_WORLD, actions)
  {
    EmptyWorldInv();
    SettledAlong(EMPTY_WORLD, actions);
  }

  // ---------- Under the row lock ----------

  /** The only intrusion left is that of an issuer that stages its key after its transaction was rolled back. */
  lemma LockedStepIntrudesExactly(w: World, a: Action)
    requires UnderLock(w) && Enabled(w, a)
    ensures Intrudes(w, a) <==> a.Act? && a.move.StageAlone? && StagesTooLate(w, w.threads[a.t], a.move)
  {
    if a.Act? && a.move.PassGate? { assert CountsHold(w.db, w.threads[a.t]); }
  }

  /** Invalidations keep the row lock, and no issuer stages a key after its transaction was rolled back. */
  predicate KeepsEveryLock(a: Action) {
    KeepsItsLock(a) && !(a.Act? && a.move.StageAlone? && a.move.outcome != Failed)
  }

  lemma {:induction false} LockedRunStaysOut(w: World, actions: seq<Action>)
    requires UnderLock(w) && Runs(w, actions) && forall i :: 0 <= i < |actions| ==> KeepsEveryLock(actions[i])
    ensures NoneIntrudes(w, actions)
    decreases |actions|
  {
    if |actions| > 0 {
      LockedStepIntrudesExactly(w, actions[0]);
      StepKeepsLocked(w, actions[0]);
      LockedRunStaysOut(Apply(w, actions[0]), actions[1..]);
    }
  }

  lemma SettledDelivery(w: World, a: Action, d: Delivery)
    requires Settled(w) && Delivers(w, a, d)
    ensures !HasPendingRow(w.db.rows, w.threads[a.t].binding) && !HasIntent(w.db, w.threads[a.t].binding)
  {
    assert ThreadSettled(w.db, w.threads[a.t]);
  }

  /** In such a run nothing whatever is pending for the binding when one of its keys is delivered. */
  lemma NothingPendingUnderLock(actions: seq<Action>, a: Action, d: Delivery)
    requires Runs(EMPTY_WORLD, actions) && forall i :: 0 <= i < |actions| ==> KeepsEveryLock(actions[i])
    requires Delivers(Final(EMPTY_WORLD, actions), a, d)
    ensures var w := Final(EMPTY_WORLD, actions);
      !HasPendingRow(w.db.rows, w.threads[a.t].binding) && !HasIntent(w.db, w.threads[a.t].binding)
  {
    EmptyWorldInv();
    LockedRunStaysOut(EMPTY_WORLD, actions);
    RunKeepsSettled(EMPTY_WORLD, actions);
    SettledDelivery(Final(EMPTY_WORLD, actions), a, d);
  }

}
