/** The invariant of the operation protocol, and that every step keeps it. */
module OperationProof {
  import opened Operations
  import opened OperationSteps

  // ---------- One row, one life, one thread ----------

  predicate Settled(state: State) {
    state == NotReceived || state == FailedInputRequired || state == Failed || state == Succeeded
  }

  predicate OpOk(db: Db, id: OperationId) {
    if id in db.ops then RecordOk(db, id, db.ops[id])
    else Count(db.admissions, id) == 0 && Count(db.exits, id) == 0 && id !in db.effects
  }

  predicate RecordOk(db: Db, id: OperationId, r: Record) {
    && r.ref.id == id && ValidRef(r.ref) && r.token < db.nextToken
    && (r.report.state == Pending || Settled(r.report.state))
    && Count(db.admissions, id) <= (if r.report.state == NotReceived then 0 else 1)
    && Count(db.exits, id) == (if r.report.state == Pending || r.report.state == NotReceived then 0 else 1)
    && (id in db.effects <==> r.report.state == Succeeded)
    && (r.report.state == FailedInputRequired ==> r.leaseExpires <= db.now)
  }

  predicate At(db: Db, b: Binding, place: Place, ref: OperationRef) {
    && place.life < |LivesOf(db, b)|
    && place.index < |LivesOf(db, b)[place.life].links|
    && LivesOf(db, b)[place.life].links[place.index] == ref
  }

  /** Exactly the successful Replace and Refresh operations have a place in the lives of their binding. */
  predicate PlaceOk(db: Db, id: OperationId) {
    && (id in db.places <==> id in db.ops && db.ops[id].report.state == Succeeded && Advancing(db.ops[id].ref.kind))
    && (id in db.places ==> At(db, db.ops[id].ref.binding, db.places[id], db.ops[id].ref))
  }

  predicate LinkOk(db: Db, b: Binding, n: nat, i: nat) {
    n < |LivesOf(db, b)| && i < |LivesOf(db, b)[n].links| ==>
      var ref := LivesOf(db, b)[n].links[i];
      && ref.id in db.places && db.places[ref.id] == Place(n, i)
      && ref.id in db.ops && db.ops[ref.id].ref == ref && ref.binding == b
  }

  function EndOf(life: Life): Generation {
    if life.links == [] then life.birth else life.links[|life.links| - 1].target
  }

  predicate Linked(life: Life, i: nat) {
    i < |life.links| ==> life.links[i].pre == if i == 0 then life.birth else life.links[i - 1].target
  }

  predicate LinkedAt(db: Db, b: Binding, n: nat, i: nat) {
    n < |LivesOf(db, b)| ==> Linked(LivesOf(db, b)[n], i)
  }

  predicate CredOk(db: Db, b: Binding) {
    b in db.creds ==>
      |LivesOf(db, b)| > 0 && db.creds[b].generation == EndOf(LivesOf(db, b)[|LivesOf(db, b)| - 1])
  }

  ghost predicate Global(db: Db) {
    && (forall id :: OpOk(db, id))
    && (forall id :: PlaceOk(db, id))
    && (forall b, n, i :: LinkOk(db, b, n, i))
    && (forall b, n, i :: LinkedAt(db, b, n, i))
    && (forall b :: CredOk(db, b))
  }

  predicate Fits(kind: Kind, write: Write) {
    match write
    case Create(_) => kind == BindCredential
    case Advance(_) => Advancing(kind)
    case Remove => kind == DeleteCredential
    case Touch => kind == ApplyAuthorizationFence || kind == SetPrimaryProfile
    case NoRow => kind == DeleteCredential
  }

  predicate Owns(db: Db, t: ThreadId, ref: OperationRef, token: Token) {
    && ref.id in db.opLocks && db.opLocks[ref.id] == t
    && Executable(db.ops, ref.id, token)
  }

  predicate Buffers(db: Db, t: ThreadId, ref: OperationRef, write: Write) {
    && Fits(ref.kind, write) && CanApply(db, ref, write)
    && (!write.NoRow? ==> ref.binding in db.credLocks && db.credLocks[ref.binding] == t)
  }

  predicate Holds(db: Db, t: ThreadId, th: Thread) {
    && th.ref.id in db.ops && db.ops[th.ref.id].ref == th.ref && Count(db.admissions, th.ref.id) == 1
    && (db.ops[th.ref.id].report.state == Pending ==> db.ops[th.ref.id].token == th.token)
    && (th.Locked? || th.Mutated? || th.Completed? ==> Owns(db, t, th.ref, th.token))
    && (th.Mutated? || th.Completed? ==> Buffers(db, t, th.ref, th.write))
    && (th.Completed? ==> th.report.state == Succeeded)
  }

  ghost predicate OneExecutor(w: World) {
    forall t, u :: t in w.threads && u in w.threads && w.threads[t].ref.id == w.threads[u].ref.id ==> t == u
  }

  predicate InTransaction(th: Thread) {
    th.Locked? || th.Mutated? || th.Completed?
  }

  /** The row lock of an operation belongs to the transaction that executes it. */
  predicate LockOwned(w: World, id: OperationId) {
    id in w.db.opLocks ==>
      var t := w.db.opLocks[id]; t in w.threads && w.threads[t].ref.id == id && InTransaction(w.threads[t])
  }

  ghost predicate Inv(w: World) {
    && Global(w.db)
    && (forall t :: t in w.threads ==> Holds(w.db, t, w.threads[t]))
    && OneExecutor(w)
    && (forall id :: LockOwned(w, id))
  }

  // ---------- What a step leaves alone ----------

  predicate OpStep(db: Db, db': Db, actor: Option<ThreadId>, id: OperationId) {
    id in db.ops ==>
      && id in db'.ops && db'.ops[id].ref == db.ops[id].ref
      && Count(db'.admissions, id) == Count(db.admissions, id)
      && (db.ops[id].report.state != Pending || db'.ops[id].report.state == Pending ==> db'.ops[id] == db.ops[id])
      && (id in db.opLocks && actor != Some(db.opLocks[id]) ==>
            db'.ops[id] == db.ops[id] && id in db'.opLocks && db'.opLocks[id] == db.opLocks[id])
  }

  predicate CredStep(db: Db, db': Db, actor: Option<ThreadId>, b: Binding) {
    b in db.credLocks && actor != Some(db.credLocks[b]) ==>
      && b in db'.credLocks && db'.credLocks[b] == db.credLocks[b]
      && (b in db'.creds <==> b in db.creds)
      && (b in db.creds ==> db'.creds[b] == db.creds[b])
      && LivesOf(db', b) == LivesOf(db, b)
  }

  predicate LifeStep(db: Db, db': Db, b: Binding, n: nat) {
    n < |LivesOf(db, b)| ==>
      && n < |LivesOf(db', b)|
      && LivesOf(db', b)[n].birth == LivesOf(db, b)[n].birth
      && LivesOf(db, b)[n].links <= LivesOf(db', b)[n].links
  }

  ghost predicate Guarantee(db: Db, db': Db, actor: Option<ThreadId>) {
    && db.now <= db'.now
    && (forall id :: OpStep(db, db', actor, id))
    && (forall b :: CredStep(db, db', actor, b))
    && (forall b, n :: LifeStep(db, db', b, n))
  }

  /** A thread's facts survive what anybody else does. */
  lemma Stable(db: Db, db': Db, actor: Option<ThreadId>, t: ThreadId, th: Thread)
    requires Guarantee(db, db', actor) && actor != Some(t) && Holds(db, t, th)
    ensures Holds(db', t, th)
  {
    assert OpStep(db, db', actor, th.ref.id);
    assert CredStep(db, db', actor, th.ref.binding);
  }

  ghost predicate Sound(db: Db, t: ThreadId, after: After) {
    && Global(after.db) && Guarantee(db, after.db, Some(t))
    && (after.thread.Some? ==> Holds(after.db, t, after.thread.value))
  }

  // ---------- Events ----------

  /** Steps that write neither operations nor credentials nor their history. */
  predicate Quiet(db: Db, db': Db) {
    db' == db.(now := db'.now, opLocks := db'.opLocks, credLocks := db'.credLocks) && db.now <= db'.now
  }

  lemma QuietKeepsGlobal(db: Db, db': Db)
    requires Global(db) && Quiet(db, db')
    ensures Global(db')
  {
    forall id ensures OpOk(db', id) { assert OpOk(db, id); }
    forall id ensures PlaceOk(db', id) { assert PlaceOk(db, id); }
    forall b, n, i ensures LinkOk(db', b, n, i) && LinkedAt(db', b, n, i) {
      assert LinkOk(db, b, n, i) && LinkedAt(db, b, n, i);
    }
    forall b ensures CredOk(db', b) { assert CredOk(db, b); }
  }

  lemma BornSound(db: Db, b: Binding, credential: Credential)
    requires Global(db) && b !in db.creds
    ensures Global(Born(db, b, credential))
    ensures forall c, n :: LifeStep(db, Born(db, b, credential), c, n)
  {
    var db' := Born(db, b, credential);
    forall id ensures OpOk(db', id) { assert OpOk(db, id); }
    forall id ensures PlaceOk(db', id) { assert PlaceOk(db, id); }
    forall c, n, i ensures LinkOk(db', c, n, i) && LinkedAt(db', c, n, i) {
      assert LinkOk(db, c, n, i) && LinkedAt(db, c, n, i);
    }
    forall c ensures CredOk(db', c) { assert CredOk(db, c); }
  }

  /** A row disappears, or changes its account: the generations and the lives stay. */
  lemma RowOnlySound(db: Db, creds: map<Binding, Credential>)
    requires Global(db)
    requires forall c :: c in creds ==> c in db.creds && creds[c].generation == db.creds[c].generation
    ensures Global(db.(creds := creds))
  {
    var db' := db.(creds := creds);
    forall id ensures OpOk(db', id) { assert OpOk(db, id); }
    forall id ensures PlaceOk(db', id) { assert PlaceOk(db, id); }
    forall c, n, i ensures LinkOk(db', c, n, i) && LinkedAt(db', c, n, i) {
      assert LinkOk(db, c, n, i) && LinkedAt(db, c, n, i);
    }
    forall c ensures CredOk(db', c) { assert CredOk(db, c); }
  }

  /** A statement on one operations row that leaves effects and places alone. */
  lemma OpsOnlySound(db: Db, db': Db, id: OperationId)
    requires Global(db) && OpOk(db', id) && PlaceOk(db', id)
    requires db' == db.(ops := db'.ops, nextToken := db'.nextToken, admissions := db'.admissions, exits := db'.exits)
    requires db.nextToken <= db'.nextToken
    requires id in db.ops ==> id in db'.ops && db'.ops[id].ref == db.ops[id].ref
    requires forall other :: other != id ==>
      && (other in db'.ops <==> other in db.ops) && (other in db.ops ==> db'.ops[other] == db.ops[other])
      && Count(db'.admissions, other) == Count(db.admissions, other) && Count(db'.exits, other) == Count(db.exits, other)
    ensures Global(db')
  {
    forall other ensures OpOk(db', other) && PlaceOk(db', other) {
      assert OpOk(db, other) && PlaceOk(db, other);
    }
    forall b, n, i ensures LinkOk(db', b, n, i) && LinkedAt(db', b, n, i) {
      assert LinkOk(db, b, n, i) && LinkedAt(db, b, n, i);
    }
    forall b ensures CredOk(db', b) { assert CredOk(db, b); }
  }

  lemma TombstoneSound(db: Db, ref: OperationRef)
    requires Global(db) && ValidRef(ref) && ref.id !in db.ops && ref.id !in db.opLocks
    ensures Global(ResolveIn(db, ref)) && Guarantee(db, ResolveIn(db, ref), None)
  {
    assert OpOk(db, ref.id) && PlaceOk(db, ref.id);
    OpsOnlySound(db, ResolveIn(db, ref), ref.id);
  }

  lemma ClosingSound(db: Db, ref: OperationRef)
    requires Global(db) && ref.id in db.ops && ref.id !in db.opLocks
    ensures Global(ResolveIn(db, ref)) && Guarantee(db, ResolveIn(db, ref), None)
  {
    var db' := ResolveIn(db, ref);
    assert OpOk(db, ref.id) && PlaceOk(db, ref.id);
    assert OpOk(db', ref.id) && PlaceOk(db', ref.id);
    OpsOnlySound(db, db', ref.id);
  }

  lemma ResolveSound(db: Db, ref: OperationRef)
    requires Global(db) && ValidRef(ref) && ref.id !in db.opLocks
    ensures Global(ResolveIn(db, ref)) && Guarantee(db, ResolveIn(db, ref), None)
  {
    if ref.id !in db.ops { TombstoneSound(db, ref); } else { ClosingSound(db, ref); }
  }

  lemma SaveSound(db: Db, b: Binding, credential: Credential)
    requires Global(db) && b !in db.credLocks
    ensures Global(SaveIn(db, b, credential)) && Guarantee(db, SaveIn(db, b, credential), None)
  {
    if b in db.creds { RowOnlySound(db, SaveIn(db, b, credential).creds); } else { BornSound(db, b, credential); }
  }

  lemma DropSound(db: Db, b: Binding)
    requires Global(db) && b !in db.credLocks
    ensures Global(db.(creds := db.creds - {b})) && Guarantee(db, db.(creds := db.creds - {b}), None)
  {
    RowOnlySound(db, db.creds - {b});
  }

  lemma HappenSound(db: Db, e: Event)
    requires Global(db) && CanHappen(db, e)
    ensures Global(HappenTo(db, e)) && Guarantee(db, HappenTo(db, e), None)
  {
    match e
    case Elapse(_) => QuietKeepsGlobal(db, HappenTo(db, e));
    case SaveCredential(b, credential) => SaveSound(db, b, credential);
    case DropCredential(b) => DropSound(db, b);
    case ResolveOperation(ref) => ResolveSound(db, ref);
  }

  // ---------- Execute ----------

  /** The row of a new operation, whether or not its caller learns of it. */
  lemma AdmissionSound(db: Db, t: ThreadId, ref: OperationRef, db': Db)
    requires Global(db) && ValidRef(ref) && ref.id !in db.ops
    requires db' == db.(ops := Admission(db.ops, ref, db.now, db.nextToken), nextToken := db.nextToken + 1,
                        admissions := db'.admissions)
    requires db'.admissions == db.admissions || db'.admissions == db.admissions[ref.id := Count(db.admissions, ref.id) + 1]
    ensures Global(db') && Guarantee(db, db', Some(t))
  {
    assert OpOk(db, ref.id) && PlaceOk(db, ref.id);
    OpsOnlySound(db, db', ref.id);
  }

  lemma ExecuteSound(db: Db, t: ThreadId, ref: OperationRef, outcome: Outcome)
    requires Global(db)
    ensures Sound(db, t, ExecuteIn(db, ref, outcome))
  {
    if outcome != Refused && ValidRef(ref) && ref.id !in db.ops {
      assert OpOk(db, ref.id);
      AdmissionSound(db, t, ref, ExecuteIn(db, ref, outcome).db);
    }
  }

  lemma QuietSound(db: Db, t: ThreadId, db': Db)
    requires Global(db) && Quiet(db, db')
    requires forall id :: id in db.opLocks && db.opLocks[id] != t ==> id in db'.opLocks && db'.opLocks[id] == db.opLocks[id]
    requires forall b :: b in db.credLocks && db.credLocks[b] != t ==> b in db'.credLocks && db'.credLocks[b] == db.credLocks[b]
    ensures Global(db') && Guarantee(db, db', Some(t))
  {
    QuietKeepsGlobal(db, db');
  }

  lemma AdvanceSound(db: Db, ref: OperationRef, db': Db)
    requires Global(db) && Advancing(ref.kind) && ref.binding in db.creds && db.creds[ref.binding].generation == ref.pre
    requires ref.id in db.ops && db.ops[ref.id].ref == ref && db.ops[ref.id].report.state == Pending
    requires |LivesOf(db, ref.binding)| > 0
    requires db' == AdvanceIn(db, ref).(ops := db'.ops, effects := db'.effects, exits := db'.exits,
                                             opLocks := db'.opLocks, credLocks := db'.credLocks)
    requires ref.id in db'.ops && db'.ops == db.ops[ref.id := db'.ops[ref.id]]
    requires db'.ops[ref.id].ref == ref && db'.ops[ref.id].report.state == Succeeded
    ensures forall id :: PlaceOk(db', id)
    ensures forall b, n, i :: LinkOk(db', b, n, i)
    ensures forall b, n, i :: LinkedAt(db', b, n, i)
    ensures forall b :: CredOk(db', b)
    ensures forall b, n :: LifeStep(db, db', b, n)
  {
    assert PlaceOk(db, ref.id);
    var lives := LivesOf(db, ref.binding);
    var last := |lives| - 1;
    assert LivesOf(db', ref.binding) == Extend(lives, ref);
    assert CredOk(db, ref.binding);
    forall id ensures PlaceOk(db', id) { assert PlaceOk(db, id); }
    forall b, n, i ensures LinkOk(db', b, n, i) {
      assert LinkOk(db, b, n, i);
    }
    forall b, n, i ensures LinkedAt(db', b, n, i) {
      assert LinkedAt(db, b, n, i);
    }
    forall b ensures CredOk(db', b) { assert CredOk(db, b); }
  }

  lemma CommittedOps(db: Db, t: ThreadId, th: Thread)
    requires Global(db) && Holds(db, t, th) && th.Completed? && CanApply(db, th.ref, th.write)
    ensures CommittedIn(db, t, th).ops == db.ops[th.ref.id := db.ops[th.ref.id].(report := th.report)]
    ensures forall id :: OpOk(CommittedIn(db, t, th), id)
    ensures forall id :: OpStep(db, CommittedIn(db, t, th), Some(t), id)
  {
    var db' := CommittedIn(db, t, th);
    assert OpOk(db, th.ref.id) && PlaceOk(db, th.ref.id);
    forall id ensures OpOk(db', id) { assert OpOk(db, id); }
  }

  /** A commit that moves no generation. */
  lemma CommittedRows(db: Db, t: ThreadId, th: Thread)
    requires Global(db) && Holds(db, t, th) && th.Completed? && CanApply(db, th.ref, th.write) && !th.write.Advance?
    ensures var db' := CommittedIn(db, t, th);
      && (forall id :: PlaceOk(db', id)) && (forall b, n, i :: LinkOk(db', b, n, i)) && (forall b, n, i :: LinkedAt(db', b, n, i))
      && (forall b :: CredOk(db', b)) && (forall b, n :: LifeStep(db, db', b, n))
  {
    var ref := th.ref;
    var db' := CommittedIn(db, t, th);
    CommittedOps(db, t, th);
    match th.write
    case Create(account) =>
      BornSound(db, ref.binding, Credential(account, ref.target));
      CommittedElsewhere(db, Born(db, ref.binding, Credential(account, ref.target)), ref, db');
    case Remove =>
      RowOnlySound(db, db.creds - {ref.binding});
      CommittedElsewhere(db, db.(creds := db.creds - {ref.binding}), ref, db');
    case Touch => CommittedElsewhere(db, db, ref, db');
    case NoRow => CommittedElsewhere(db, db, ref, db');
  }

  lemma CommittedSound(db: Db, t: ThreadId, th: Thread)
    requires Global(db) && Holds(db, t, th) && th.Completed? && CanApply(db, th.ref, th.write)
    ensures Global(CommittedIn(db, t, th)) && Guarantee(db, CommittedIn(db, t, th), Some(t))
  {
    CommittedOps(db, t, th);
    if th.write.Advance? { AdvanceSound(db, th.ref, CommittedIn(db, t, th)); } else { CommittedRows(db, t, th); }
  }

  /** A commit of an operation that is neither Replace nor Refresh: nothing is added to any life. */
  lemma CommittedElsewhere(db: Db, written: Db, ref: OperationRef, db': Db)
    requires Global(written) && !Advancing(ref.kind)
    requires ref.id in db.ops && db.ops[ref.id].ref == ref && db.ops[ref.id].report.state == Pending
    requires written.ops == db.ops && written.places == db.places
    requires db'.creds == written.creds && db'.lives == written.lives && db'.places == written.places
    requires ref.id in db'.ops && db'.ops == db.ops[ref.id := db'.ops[ref.id]] && db'.ops[ref.id].ref == ref
    ensures forall id :: PlaceOk(db', id)
    ensures forall b, n, i :: LinkOk(db', b, n, i)
    ensures forall b, n, i :: LinkedAt(db', b, n, i)
    ensures forall b :: CredOk(db', b)
  {
    forall id ensures PlaceOk(db', id) { assert PlaceOk(written, id); }
    forall b, n, i ensures LinkOk(db', b, n, i) && LinkedAt(db', b, n, i) {
      assert LinkOk(written, b, n, i) && LinkedAt(written, b, n, i);
    }
    forall b ensures CredOk(db', b) { assert CredOk(written, b); }
  }

  lemma FailPendingSound(db: Db, t: ThreadId, th: Thread, reason: string, outcome: Outcome)
    requires Global(db) && Holds(db, t, th) && th.Failing? && th.ref.id !in db.opLocks
    ensures Sound(db, t, FailPendingIn(db, th, reason, outcome))
  {
    if outcome != Refused {
      assert OpOk(db, th.ref.id) && PlaceOk(db, th.ref.id);
      OpsOnlySound(db, FailPendingIn(db, th, reason, outcome).db, th.ref.id);
    }
  }

  lemma MutateSound(db: Db, t: ThreadId, th: Thread, write: Write)
    requires Global(db) && Holds(db, t, th) && Can(db, th, Mutate(write))
    ensures Sound(db, t, MutateIn(db, t, th, write))
  {
    assert CredOk(db, th.ref.binding);
    QuietSound(db, t, MutateIn(db, t, th, write).db);
  }

  lemma MoveSound(db: Db, t: ThreadId, th: Thread, m: Move)
    requires Global(db) && Holds(db, t, th) && Can(db, th, m)
    ensures Sound(db, t, MoveIn(db, t, th, m))
  {
    match m
    case LockPending => QuietSound(db, t, LockPendingIn(db, t, th).db);
    case Mutate(write) => MutateSound(db, t, th, write);
    case Complete(_) => QuietSound(db, t, db);
    case Abort => QuietSound(db, t, Unlocked(db, t));
    case Commit(outcome) =>
      if outcome == Refused { QuietSound(db, t, Unlocked(db, t)); } else { CommittedSound(db, t, th); }
    case FailPending(reason, outcome) => FailPendingSound(db, t, th, reason, outcome);
    case Crash => QuietSound(db, t, Unlocked(db, t));
  }

  // ---------- Steps and runs ----------

  function ActorOf(a: Action): Option<ThreadId> {
    if a.Happen? then None else Some(a.t)
  }

  lemma StepSound(w: World, a: Action)
    requires Inv(w) && Enabled(w, a)
    ensures Global(Apply(w, a).db) && Guarantee(w.db, Apply(w, a).db, ActorOf(a))
    ensures !a.Happen? ==> Sound(w.db, a.t, Step(w, a))
  {
    match a
    case Happen(e) => HappenSound(w.db, e);
    case Execute(t, ref, outcome) => ExecuteSound(w.db, t, ref, outcome);
    case Act(t, m) => MoveSound(w.db, t, w.threads[t], m);
  }

  lemma StepKeepsInv(w: World, a: Action)
    requires Inv(w) && Enabled(w, a)
    ensures Inv(Apply(w, a)) && Guarantee(w.db, Apply(w, a).db, ActorOf(a))
  {
    StepSound(w, a);
    var w' := Apply(w, a);
    forall u | u in w'.threads ensures Holds(w'.db, u, w'.threads[u]) {
      if ActorOf(a) != Some(u) { Stable(w.db, w'.db, ActorOf(a), u, w.threads[u]); }
    }
    forall u, v | u in w'.threads && v in w'.threads && w'.threads[u].ref.id == w'.threads[v].ref.id ensures u == v {
      assert u in w.threads ==> Holds(w.db, u, w.threads[u]);
      assert v in w.threads ==> Holds(w.db, v, w.threads[v]);
      KeepsItsRef(w, a, u);
      KeepsItsRef(w, a, v);
    }
    forall id ensures LockOwned(w', id) {
      assert LockOwned(w, id);
      KeepsLockOwned(w, a, id);
    }
  }

  /** Only LockPending takes an operation row lock; the end of the transaction returns it. */
  lemma CommitLocks(db: Db, t: ThreadId, th: Thread, outcome: Outcome)
    requires Can(db, th, Commit(outcome))
    ensures var after := MoveIn(db, t, th, Commit(outcome));
      after.db.opLocks == Without(db.opLocks, t) && (after.thread.Some? ==> !InTransaction(after.thread.value))
  {
    if outcome != Refused { assert ApplyWrite(db, th.ref, th.write).opLocks == db.opLocks; }
  }

  lemma MoveLocks(db: Db, t: ThreadId, th: Thread, m: Move)
    requires Can(db, th, m)
    ensures var after := MoveIn(db, t, th, m);
      if after.thread.Some? && InTransaction(after.thread.value) then
        after.db.opLocks == if m.LockPending? then db.opLocks[th.ref.id := t] else db.opLocks
      else after.db.opLocks == db.opLocks || after.db.opLocks == Without(db.opLocks, t)
    ensures InTransaction(th) ==>
      var after := MoveIn(db, t, th, m);
      (after.thread.Some? && InTransaction(after.thread.value)) || after.db.opLocks == Without(db.opLocks, t)
  {
    if m.Commit? { CommitLocks(db, t, th, m.outcome); }
  }

  /** The thread took the lock of its own operation, or kept its locks, or gave them all back. */
  predicate LocksFit(db: Db, t: ThreadId, th: Thread, after: After) {
    && (after.thread.Some? ==> after.thread.value.ref == th.ref)
    && if after.thread.Some? && InTransaction(after.thread.value) then
         after.db.opLocks == db.opLocks || after.db.opLocks == db.opLocks[th.ref.id := t]
       else after.db.opLocks == Without(db.opLocks, t) || (!InTransaction(th) && after.db.opLocks == db.opLocks)
  }

  lemma MoveLocksFit(db: Db, t: ThreadId, th: Thread, m: Move)
    requires Can(db, th, m)
    ensures LocksFit(db, t, th, MoveIn(db, t, th, m))
  {
    MoveLocks(db, t, th, m);
    match m
    case LockPending =>
    case Mutate(_) =>
    case Complete(_) =>
    case Abort =>
    case Commit(_) =>
    case FailPending(_, _) =>
    case Crash =>
  }

  lemma LockOwnedAfter(w: World, t: ThreadId, after: After, id: OperationId)
    requires t in w.threads && LockOwned(w, id) && LocksFit(w.db, t, w.threads[t], after)
    ensures LockOwned(World(after.db, Put(w.threads, t, after.thread)), id)
  {
  }

  lemma EventsKeepLockOwned(w: World, e: Event, id: OperationId)
    requires Enabled(w, Happen(e)) && LockOwned(w, id)
    ensures LockOwned(Apply(w, Happen(e)), id)
  {
  }

  lemma AdmissionKeepsLockOwned(w: World, t: ThreadId, ref: OperationRef, outcome: Outcome, id: OperationId)
    requires Enabled(w, Execute(t, ref, outcome)) && LockOwned(w, id)
    ensures LockOwned(Apply(w, Execute(t, ref, outcome)), id)
  {
  }

  lemma MovesKeepLockOwned(w: World, t: ThreadId, m: Move, id: OperationId)
    requires Enabled(w, Act(t, m)) && LockOwned(w, id)
    ensures LockOwned(Apply(w, Act(t, m)), id)
  {
    MoveLocksFit(w.db, t, w.threads[t], m);
    LockOwnedAfter(w, t, MoveIn(w.db, t, w.threads[t], m), id);
  }

  lemma KeepsLockOwned(w: World, a: Action, id: OperationId)
    requires Enabled(w, a) && LockOwned(w, id)
    ensures LockOwned(Apply(w, a), id)
  {
    match a
    case Happen(e) => EventsKeepLockOwned(w, e, id);
    case Execute(t, ref, outcome) => AdmissionKeepsLockOwned(w, t, ref, outcome, id);
    case Act(t, m) => MovesKeepLockOwned(w, t, m, id);
  }

  lemma KeepsItsRef(w: World, a: Action, t: ThreadId)
    requires Enabled(w, a) && t in Apply(w, a).threads
    ensures if t in w.threads then Apply(w, a).threads[t].ref == w.threads[t].ref
            else a.Execute? && a.t == t && Apply(w, a).threads[t].ref == a.ref && a.ref.id !in w.db.ops
  {
  }

  lemma EmptyWorldInv()
    ensures Inv(EMPTY_WORLD)
  {
    forall id ensures OpOk(EMPTY_DB, id) && PlaceOk(EMPTY_DB, id) { }
    forall b, n, i ensures LinkOk(EMPTY_DB, b, n, i) && LinkedAt(EMPTY_DB, b, n, i) { }
    forall b ensures CredOk(EMPTY_DB, b) { }
  }

  lemma {:induction false} RunKeepsInv(w: World, actions: seq<Action>)
    requires Inv(w) && Runs(w, actions)
    ensures Inv(Final(w, actions))
    decreases |actions|
  {
    if |actions| > 0 {
      StepKeepsInv(w, actions[0]);
      RunKeepsInv(Apply(w, actions[0]), actions[1..]);
    }
  }

}
