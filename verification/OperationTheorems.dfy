/**
 What control operations promise over whole runs: at most one execution, no effect behind an unknown
 outcome, and one chain of generations for each life of a credential row.
 */
module OperationTheorems {
  import opened Operations
  import opened OperationSteps
  import opened OperationProof

  // ---------- At most once ----------

  /** From one world to a later one: a known id keeps its reference, and a settled row never changes again. */
  predicate History(db: Db, db': Db, id: OperationId) {
    id in db.ops ==>
      && id in db'.ops && db'.ops[id].ref == db.ops[id].ref
      && Count(db'.admissions, id) == Count(db.admissions, id)
      && (db.ops[id].report.state != Pending ==> db'.ops[id] == db.ops[id])
  }

  lemma {:induction false} SettledIsFinal(w: World, actions: seq<Action>, id: OperationId)
    requires Inv(w) && Runs(w, actions)
    ensures History(w.db, Final(w, actions).db, id)
    decreases |actions|
  {
    if |actions| > 0 {
      StepKeepsInv(w, actions[0]);
      var w1 := Apply(w, actions[0]);
      assert OpStep(w.db, w1.db, ActorOf(actions[0]), id);
      SettledIsFinal(w1, actions[1..], id);
    }
  }

  /** Whatever calls arrive: one admission, one way out of pending, one request that executes. */
  lemma AtMostOnce(actions: seq<Action>, id: OperationId)
    requires Runs(EMPTY_WORLD, actions)
    ensures var w := Final(EMPTY_WORLD, actions);
      && Count(w.db.admissions, id) <= 1 && Count(w.db.exits, id) <= 1
      && (Count(w.db.exits, id) == 1 <==>
            id in w.db.ops && w.db.ops[id].report.state != Pending && w.db.ops[id].report.state != NotReceived)
      && OneExecutor(w)
  {
    EmptyWorldInv();
    RunKeepsInv(EMPTY_WORLD, actions);
    assert OpOk(Final(EMPTY_WORLD, actions).db, id);
  }

  /** The tombstone: after a Resolve of an unknown id nobody is ever admitted under it. */
  lemma TombstoneBlocksAdmission(w: World, actions: seq<Action>, id: OperationId)
    requires Inv(w) && Runs(w, actions)
    requires id in w.db.ops && w.db.ops[id].report.state == NotReceived
    ensures Count(Final(w, actions).db.admissions, id) == 0
    ensures forall t :: t in Final(w, actions).threads ==> Final(w, actions).threads[t].ref.id != id
  {
    SettledIsFinal(w, actions, id);
    RunKeepsInv(w, actions);
    var w' := Final(w, actions);
    assert OpOk(w'.db, id);
    forall t | t in w'.threads ensures w'.threads[t].ref.id != id {
      assert Holds(w'.db, t, w'.threads[t]);
    }
  }

  // ---------- Unknown outcome means no effect ----------

  predicate UnknownOutcome(state: State) {
    state == FailedInputRequired || state == NotReceived
  }

  /** The operation is a link of some life, that is, it moved the generation of a credential row. */
  ghost predicate MovedGeneration(db: Db, id: OperationId) {
    exists b, n, i :: IsLink(db, b, n, i, id)
  }

  predicate IsLink(db: Db, b: Binding, n: nat, i: nat, id: OperationId) {
    && n < |LivesOf(db, b)| && i < |LivesOf(db, b)[n].links|
    && LivesOf(db, b)[n].links[i].id == id
  }

  /** A mutation is committed exactly when its operation is stored as succeeded. */
  lemma EffectIffSucceeded(w: World, id: OperationId)
    requires Inv(w)
    ensures id in w.db.effects <==> id in w.db.ops && w.db.ops[id].report.state == Succeeded
    ensures MovedGeneration(w.db, id) <==> id in w.db.effects && Advancing(w.db.ops[id].ref.kind)
  {
    assert OpOk(w.db, id) && PlaceOk(w.db, id);
    if MovedGeneration(w.db, id) {
      var b, n, i :| IsLink(w.db, b, n, i, id);
      assert LinkOk(w.db, b, n, i);
    }
    if id in w.db.places {
      var place := w.db.places[id];
      assert IsLink(w.db, w.db.ops[id].ref.binding, place.life, place.index, id);
    }
  }

  /** An operation Resolve once reported as unknown has not moved a generation and never will. */
  lemma UnknownOutcomeMeansNoEffect(w: World, actions: seq<Action>, id: OperationId)
    requires Inv(w) && Runs(w, actions)
    requires id in w.db.ops && UnknownOutcome(w.db.ops[id].report.state)
    ensures id !in Final(w, actions).db.effects && !MovedGeneration(Final(w, actions).db, id)
    ensures id in Final(w, actions).db.ops && Final(w, actions).db.ops[id] == w.db.ops[id]
  {
    SettledIsFinal(w, actions, id);
    RunKeepsInv(w, actions);
    EffectIffSucceeded(Final(w, actions), id);
  }

  /** The row is there before and after, with another generation. */
  predicate Regenerated(db: Db, db': Db, b: Binding) {
    b in db.creds && b in db'.creds && db'.creds[b].generation != db.creds[b].generation
  }

  /** The thread's commit moved the row from the `pre` of its operation to the target, and settled it. */
  predicate MovedBy(db: Db, db': Db, th: Thread, b: Binding) {
    && th.Completed? && th.ref.binding == b && Advancing(th.ref.kind)
    && b in db.creds && th.ref.pre == db.creds[b].generation
    && b in db'.creds && th.ref.target == db'.creds[b].generation
    && Executable(db.ops, th.ref.id, th.token)
    && th.ref.id in db'.ops && db'.ops[th.ref.id].report.state == Succeeded
  }

  lemma CommitMoves(db: Db, t: ThreadId, th: Thread, outcome: Outcome, b: Binding)
    requires th.Completed? && Holds(db, t, th) && Regenerated(db, CommitIn(db, t, th, outcome).db, b)
    ensures MovedBy(db, CommitIn(db, t, th, outcome).db, th, b)
  {
    if outcome != Refused {
      assert CommittedIn(db, t, th).creds == ApplyWrite(db, th.ref, th.write).creds;
      assert CommittedIn(db, t, th).ops == Completion(db.ops, th.ref.id, th.token, th.report);
      match th.write
      case Create(_) =>
      case Advance(_) =>
      case Remove =>
      case Touch =>
      case NoRow =>
    }
  }

  lemma OnlyCommitWrites(db: Db, t: ThreadId, th: Thread, m: Move)
    requires Can(db, th, m) && !m.Commit?
    ensures MoveIn(db, t, th, m).db.creds == db.creds
  {
  }

  lemma MoveMoves(db: Db, t: ThreadId, th: Thread, m: Move, b: Binding)
    requires Can(db, th, m) && Holds(db, t, th) && Regenerated(db, MoveIn(db, t, th, m).db, b)
    ensures m.Commit? && MovedBy(db, MoveIn(db, t, th, m).db, th, b)
  {
    if m.Commit? { CommitMoves(db, t, th, m.outcome, b); } else { OnlyCommitWrites(db, t, th, m); }
  }

  lemma EventsKeepGeneration(w: World, e: Event, b: Binding)
    requires Inv(w) && Enabled(w, Happen(e))
    ensures !Regenerated(w.db, Apply(w, Happen(e)).db, b)
  {
    match e
    case Elapse(_) =>
    case SaveCredential(_, _) =>
    case DropCredential(_) =>
    case ResolveOperation(ref) => assert ResolveIn(w.db, ref).creds == w.db.creds;
  }

  lemma AdmissionKeepsGeneration(w: World, t: ThreadId, ref: OperationRef, outcome: Outcome, b: Binding)
    requires Inv(w) && Enabled(w, Execute(t, ref, outcome))
    ensures !Regenerated(w.db, Apply(w, Execute(t, ref, outcome)).db, b)
  {
  }

  lemma OnlyCommitRegenerates(w: World, t: ThreadId, m: Move, b: Binding)
    requires Inv(w) && Enabled(w, Act(t, m)) && Regenerated(w.db, Apply(w, Act(t, m)).db, b)
    ensures m.Commit? && MovedBy(w.db, Apply(w, Act(t, m)).db, w.threads[t], b)
  {
    MoveMoves(w.db, t, w.threads[t], m, b);
  }

  /** The generation of a living row moves only in the commit that settles a Replace or Refresh as succeeded. */
  lemma GenerationMovesOnlyBySuccess(w: World, a: Action, b: Binding)
    requires Inv(w) && Enabled(w, a) && Regenerated(w.db, Apply(w, a).db, b)
    ensures a.Act? && a.move.Commit? && MovedBy(w.db, Apply(w, a).db, w.threads[a.t], b)
  {
    match a
    case Happen(e) => EventsKeepGeneration(w, e, b);
    case Execute(t, ref, outcome) => AdmissionKeepsGeneration(w, t, ref, outcome, b);
    case Act(t, m) => OnlyCommitRegenerates(w, t, m, b);
  }

  /** Resolve can call an outcome unknown only after the execution lease has run out. */
  lemma LeaseProtectsExecution(w: World, id: OperationId)
    requires Inv(w) && id in w.db.ops && w.db.ops[id].report.state == FailedInputRequired
    ensures w.db.ops[id].leaseExpires <= w.db.now
  {
    assert OpOk(w.db, id);
  }

  /** A transaction that completed its operation is never refused at the commit. */
  lemma CompletedCanCommit(w: World, t: ThreadId, outcome: Outcome)
    requires Inv(w) && t in w.threads && w.threads[t].Completed?
    ensures Enabled(w, Act(t, Commit(outcome)))
    ensures outcome != Refused ==> w.threads[t].ref.id in Apply(w, Act(t, Commit(outcome))).db.effects
  {
    assert Holds(w.db, t, w.threads[t]);
  }

  // ---------- The chain of generations ----------

  ghost predicate Chained(life: Life) {
    forall i: nat :: Linked(life, i)
  }

  lemma GenerationChain(actions: seq<Action>, b: Binding)
    requires Runs(EMPTY_WORLD, actions)
    ensures var db := Final(EMPTY_WORLD, actions).db;
      && (forall n :: 0 <= n < |LivesOf(db, b)| ==> Chained(LivesOf(db, b)[n]))
      && (b in db.creds ==> |LivesOf(db, b)| > 0
                            && db.creds[b].generation == EndOf(LivesOf(db, b)[|LivesOf(db, b)| - 1]))
  {
    EmptyWorldInv();
    RunKeepsInv(EMPTY_WORLD, actions);
    var db := Final(EMPTY_WORLD, actions).db;
    forall n, i: nat | 0 <= n < |LivesOf(db, b)| ensures Linked(LivesOf(db, b)[n], i) {
      assert LinkedAt(db, b, n, i);
    }
    assert CredOk(db, b);
  }

  /** The links are the succeeded Replace and Refresh operations, each in exactly one place. */
  lemma LinksAreTheSuccesses(w: World, b: Binding, ref: OperationRef)
    requires Inv(w)
    ensures (exists n, i :: At(w.db, b, Place(n, i), ref)) <==>
      && ref.id in w.db.ops && w.db.ops[ref.id].ref == ref && ref.binding == b
      && w.db.ops[ref.id].report.state == Succeeded && Advancing(ref.kind)
    ensures forall n, i, m, j :: At(w.db, b, Place(n, i), ref) && At(w.db, b, Place(m, j), ref) ==> n == m && i == j
  {
    assert PlaceOk(w.db, ref.id);
    if ref.id in w.db.places && w.db.ops[ref.id].ref == ref {
      assert w.db.places[ref.id] == Place(w.db.places[ref.id].life, w.db.places[ref.id].index);
    }
    forall n, i | At(w.db, b, Place(n, i), ref)
      ensures ref.id in w.db.places && w.db.places[ref.id] == Place(n, i)
      ensures ref.id in w.db.ops && w.db.ops[ref.id].ref == ref && ref.binding == b
    {
      assert LinkOk(w.db, b, n, i);
    }
  }

  /** Later steps only append to the life of a living row, and leave ended lives as they are. */
  lemma {:induction false} ChainsOnlyGrow(w: World, actions: seq<Action>, b: Binding, n: nat)
    requires Inv(w) && Runs(w, actions)
    ensures LifeStep(w.db, Final(w, actions).db, b, n)
    decreases |actions|
  {
    if |actions| > 0 {
      StepKeepsInv(w, actions[0]);
      assert LifeStep(w.db, Apply(w, actions[0]).db, b, n);
      ChainsOnlyGrow(Apply(w, actions[0]), actions[1..], b, n);
    }
  }

  /** The i-th success of a life starts from the birth generation plus i, in 64-bit arithmetic. */
  lemma {:induction false} LinkStartsFrom(life: Life, i: nat)
    requires Chained(life) && i < |life.links|
    requires forall k :: 0 <= k < |life.links| ==> life.links[k].target == NextGeneration(life.links[k].pre)
    ensures life.links[i].pre == (life.birth + i) % UINT64_SPAN
  {
    assert Linked(life, i);
    if i > 0 { LinkStartsFrom(life, i - 1); }
  }

  lemma SameRemainder(a: nat, i: nat, j: nat)
    ensures (a + i) % UINT64_SPAN == (a + j) % UINT64_SPAN <==> (i - j) % UINT64_SPAN == 0
  {
    var q, r := (a + i) / UINT64_SPAN, (a + j) / UINT64_SPAN;
    assert a + i == UINT64_SPAN * q + (a + i) % UINT64_SPAN;
    assert a + j == UINT64_SPAN * r + (a + j) % UINT64_SPAN;
    assert i - j == UINT64_SPAN * (q - r) + ((a + i) % UINT64_SPAN - (a + j) % UINT64_SPAN);
  }

  /** No two successes of one life start from the same generation before the counter has wrapped around. */
  lemma NoTwoSuccessesFromOneGeneration(w: World, b: Binding, n: nat, i: nat, j: nat)
    requires Inv(w) && n < |LivesOf(w.db, b)|
    requires i < |LivesOf(w.db, b)[n].links| && j < |LivesOf(w.db, b)[n].links|
    ensures var links := LivesOf(w.db, b)[n].links;
      links[i].pre == links[j].pre <==> (i - j) % UINT64_SPAN == 0
  {
    var life := LivesOf(w.db, b)[n];
    forall k: nat ensures Linked(life, k) { assert LinkedAt(w.db, b, n, k); }
    forall k | 0 <= k < |life.links| ensures life.links[k].target == NextGeneration(life.links[k].pre) {
      assert LinkOk(w.db, b, n, k);
      assert OpOk(w.db, life.links[k].id) && PlaceOk(w.db, life.links[k].id);
    }
    LinkStartsFrom(life, i);
    LinkStartsFrom(life, j);
    SameRemainder(life.birth, i, j);
  }

}
