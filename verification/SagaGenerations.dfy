/** What a committed control operation writes, and that no key is delivered to a ticket of an earlier generation. */
module SagaGenerations {
  import opened SagaState
  import opened SagaSteps
  import opened SagaInvariant
  import opened SagaTheorems
  import opened SagaFences

  /**
   A refresh and a replacement move the generation by one and leave the credential active, a deletion removes it; the
   last two leave no artifact row.
   */
  lemma ControlWrites(w: World, a: Action, b: Binding, e: Effect)
    requires Inv(w) && CommitsControl(w, a, b, e)
    ensures b in w.db.creds
    ensures e.Refresh? || e.Replace? ==>
      b in Apply(w, a).db.creds && Apply(w, a).db.creds[b] == Credential(w.db.creds[b].generation + 1, true)
    ensures e.Delete? ==> b !in Apply(w, a).db.creds
    ensures e.Replace? || e.Delete? ==> forall s :: s in Apply(w, a).db.rows ==> s.binding != b
  {
    assert Holds(w.db, a.t, w.threads[a.t]);
  }

  // ---------- The generation only rises ----------

  /** While a credential row stands, its generation does not fall. */
  ghost predicate GenerationsRise(db: Db, db': Db) {
    forall b :: b in db.creds && b in db'.creds ==> db.creds[b].generation <= db'.creds[b].generation
  }

  lemma EffectLifts(db: Db, b: Binding, e: Effect)
    requires b in db.creds
    ensures GenerationsRise(db, Unlock(ApplyEffect(db, b, e), b))
  {
  }

  lemma ConcludeLifts(db: Db, th: Thread, outcome: Outcome)
    requires th.Concluding?
    ensures GenerationsRise(db, ConcludeIn(db, th, outcome).db)
  {
    var b := th.cause.binding;
    if !th.cause.purpose.Control? { AttentionLifts(db, th, outcome); }
    else if th.cause.held && outcome != Failed && b in db.creds && th.result != Failure { EffectLifts(db, b, th.cause.purpose.effect); }
  }

  lemma AttentionLifts(db: Db, th: Thread, outcome: Outcome)
    requires th.Concluding? && !th.cause.purpose.Control?
    ensures GenerationsRise(db, ConcludeIn(db, th, outcome).db)
  {
  }

  lemma OtherCommitKeepsCredentials(db: Db, th: Thread, outcome: Outcome)
    requires th.Written? || th.Reusing? || th.Confirming?
    ensures CommitIn(db, th, outcome).db.creds == db.creds
  {
  }

  lemma StatementKeepsCredentials(db: Db, t: ThreadId, th: Thread, m: Move)
    requires Can(db, t, th, m) && !m.Commit?
    ensures MoveIn(db, t, th, m).db.creds == db.creds
  {
    if Looks(m) { LookKeepsCredentials(db, t, th, m); }
    else if Alone(m) { AloneKeepsCredentials(db, t, th, m); }
    else if Ends(m) { EndingKeepsCredentials(db, t, th, m); }
    else { WriteKeepsCredentials(db, t, th, m); }
  }

  lemma LookKeepsCredentials(db: Db, t: ThreadId, th: Thread, m: Move)
    requires Can(db, t, th, m) && Looks(m)
    ensures MoveIn(db, t, th, m).db.creds == db.creds
  {
  }

  lemma AloneKeepsCredentials(db: Db, t: ThreadId, th: Thread, m: Move)
    requires Can(db, t, th, m) && Alone(m)
    ensures MoveIn(db, t, th, m).db.creds == db.creds
  {
  }

  lemma EndingKeepsCredentials(db: Db, t: ThreadId, th: Thread, m: Move)
    requires Can(db, t, th, m) && Ends(m) && !Alone(m)
    ensures MoveIn(db, t, th, m).db.creds == db.creds
  {
  }

  lemma RevokeKeepsCredentials(db: Db, th: Thread, outcome: Outcome)
    requires th.Compensating? || th.RecoveringOne? || (th.Revoking? && th.index < |th.jobs|)
    ensures RevokeNext(db, th, outcome).db.creds == db.creds
  {
  }

  lemma WriteKeepsCredentials(db: Db, t: ThreadId, th: Thread, m: Move)
    requires Can(db, t, th, m) && !Looks(m) && !Alone(m) && !Ends(m) && !m.Commit?
    ensures MoveIn(db, t, th, m).db.creds == db.creds
  {
    match m
    case Revoke(outcome) => RevokeKeepsCredentials(db, th, outcome);
    case Stage(_, _) =>
    case Resolve(_) =>
    case Finalize(_) =>
    case MarkRows(_) =>
    case DeleteRows(_) =>
    case Release(_) =>
  }

  lemma MoveLifts(db: Db, t: ThreadId, th: Thread, m: Move)
    requires Can(db, t, th, m)
    ensures GenerationsRise(db, MoveIn(db, t, th, m).db)
  {
    if !m.Commit? { StatementKeepsCredentials(db, t, th, m); }
    else if th.Concluding? { ConcludeLifts(db, th, m.outcome); }
    else { OtherCommitKeepsCredentials(db, th, m.outcome); }
  }

  lemma EventLifts(db: Db, e: Event)
    requires CanHappen(db, e)
    ensures GenerationsRise(db, HappenTo(db, e))
  {
  }

  lemma RequestLifts(db: Db, t: ThreadId, r: Request)
    requires CanBegin(db, t, r)
    ensures GenerationsRise(db, BeginIn(db, t, r).db)
  {
  }

  lemma StepLifts(w: World, a: Action)
    requires Enabled(w, a)
    ensures GenerationsRise(w.db, Apply(w, a).db)
  {
    match a
    case Happen(e) => EventLifts(w.db, e);
    case Begin(t, r) => RequestLifts(w.db, t, r);
    case Act(t, m) => MoveLifts(w.db, t, w.threads[t], m);
  }

  /** The credential row of the binding stands all the time. */
  predicate Stands(w: World, actions: seq<Action>, b: Binding)
    decreases |actions|
  {
    b in w.db.creds && (|actions| == 0 || Stands(Apply(w, actions[0]), actions[1..], b))
  }

  lemma {:induction false} RunLifts(w: World, actions: seq<Action>, b: Binding)
    requires Runs(w, actions) && Stands(w, actions, b)
    ensures b in Final(w, actions).db.creds
    ensures w.db.creds[b].generation <= Final(w, actions).db.creds[b].generation
    decreases |actions|
  {
    if |actions| > 0 {
      StepLifts(w, actions[0]);
      RunLifts(Apply(w, actions[0]), actions[1..], b);
    }
  }

  /**
   After a refresh or a replacement has committed, however the run goes on while the credential row stands, the unlocked
   call included, no key of the binding is delivered to a ticket of the earlier generation.
   */
  lemma EarlierGenerationIsNotDelivered(w: World, a: Action, b: Binding, e: Effect, actions: seq<Action>, x: Action, d: Delivery)
    requires Inv(w) && CommitsControl(w, a, b, e) && (e.Refresh? || e.Replace?)
    requires Runs(Apply(w, a), actions) && Stands(Apply(w, a), actions, b)
    requires Delivers(Final(Apply(w, a), actions), x, d)
    requires d.key in Final(Apply(w, a), actions).db.info && Final(Apply(w, a), actions).db.info[d.key].slot.binding == b
    ensures b in w.db.creds && d.versions.generation > w.db.creds[b].generation
  {
    ControlWrites(w, a, b, e);
    StepKeepsInv(w, a);
    RunKeepsInv(Apply(w, a), actions);
    RunLifts(Apply(w, a), actions, b);
    ConfirmationHolds(Final(Apply(w, a), actions), x, d);
  }

}
