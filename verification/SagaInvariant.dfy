/** The inductive invariant of the saga and its preservation by every step. */
module SagaInvariant {
  import opened Authorization
  import opened SagaState
  import opened SagaSteps

  // ---------- Facts about one key ----------

  ghost predicate IsReady(db: Db, k: Key) {
    k in db.intents && db.intents[k].state == Ready
  }

  ghost predicate InRow(db: Db, k: Key) {
    k in db.info && db.info[k].slot in db.rows && db.rows[db.info[k].slot].key == k
  }

  /** The key is dead, or something still leads to it that only its revocation can remove. */
  ghost predicate Safe(db: Db, k: Key) {
    k in db.acked || Expired(db, k) || InRow(db, k) || IsReady(db, k)
  }

  ghost predicate Excused(db: Db, k: Key) {
    k in db.invalidated || Expired(db, k)
  }

  ghost predicate Condemned(db: Db, k: Key) {
    Excused(db, k) || k in db.barred
  }

  // ---------- The database, one key, row, identifier at a time ----------

  /** How the history sets relate. */
  ghost predicate KeyHistory(db: Db, k: Key) {
    && (k in db.returned ==> k in db.committed)
    && (k in db.invalidated ==> k in db.committed)
    && (k in db.committed ==> k in db.closed && k in db.staged)
    && (k in db.barred ==> k in db.closed)
    && (k in db.recovered ==> k in db.invalidated || k in db.barred)
    && (k in db.staged || k in db.closed ==> k in db.info)
  }

  /** The stored intent of a key. */
  ghost predicate KeyIntent(db: Db, k: Key) {
    k in db.intents ==>
      && k in db.staged
      && db.intents[k].id in db.idOf && db.idOf[db.intents[k].id] == k
      && (db.intents[k].lease.Held? ==> db.intents[k].lease.token in db.tokenOwner)
      && (k in db.returned ==> k in db.invalidated)
      && (k in db.invalidated ==> db.intents[k].state == Ready)
      && (db.intents[k].state == Ready ==> k in db.closed && Condemned(db, k))
  }

  ghost predicate KeyOk(db: Db, k: Key) {
    KeyHistory(db, k) && KeyIntent(db, k) && (k in db.invalidated ==> k in db.acked || IsReady(db, k))
  }

  ghost predicate RowOk(db: Db, s: Slot) {
    s in db.rows ==>
      && s.binding in db.creds && db.rows[s].key in db.committed
      && db.rows[s].key in db.info && db.info[db.rows[s].key].slot == s
  }

  ghost predicate IdOk(db: Db, i: IntentId) {
    i in db.idOf ==> db.idOf[i] in db.staged
  }

  ghost predicate Global(db: Db) {
    && (forall k :: KeyOk(db, k)) && (forall s :: RowOk(db, s)) && (forall i :: IdOk(db, i))
    && (forall b :: b in db.locks ==> b in db.creds)
  }

  // ---------- The threads ----------

  ghost predicate HasLock(db: Db, t: ThreadId, b: Binding) {
    b in db.locks && db.locks[b] == t && b in db.creds
  }

  /** The issuing transaction of the key is still open and belongs to t. */
  ghost predicate Issues(db: Db, t: ThreadId, s: Slot, k: Key) {
    HasLock(db, t, s.binding) && k in db.info && db.info[k].slot == s && db.info[k].owner == t && k !in db.closed
  }

  ghost predicate FreeSlot(db: Db, s: Slot) {
    s in db.rows ==> db.rows[s].pending || Expired(db, db.rows[s].key)
  }

  ghost predicate JobHolds(db: Db, j: Job) {
    && j.key in db.staged && j.key in db.closed
    && j.id in db.idOf && db.idOf[j.id] == j.key
    && (j.key in db.intents && db.intents[j.key].state == Provisional ==>
          j.stage == MarkStage && db.intents[j.key].id == j.id)
    && (j.stage == RowStage || j.stage == IntentStage ==> j.key in db.acked)
    && (j.stage == IntentStage ==> !InRow(db, j.key))
  }

  ghost predicate JobsHold(db: Db, b: Binding, jobs: seq<Job>) {
    forall i :: 0 <= i < |jobs| ==>
      jobs[i].key in db.invalidated && jobs[i].key in db.info && db.info[jobs[i].key].slot.binding == b
      && jobs[i].id in db.idOf && db.idOf[jobs[i].id] == jobs[i].key
  }

  ghost predicate AllAcked(db: Db, jobs: seq<Job>, upTo: nat) {
    forall i :: 0 <= i < |jobs| && i < upTo ==> jobs[i].key in db.acked
  }

  ghost predicate RowsExcused(db: Db, b: Binding) {
    forall s :: s in db.rows && s.binding == b ==> Excused(db, db.rows[s].key)
  }

  ghost predicate CauseHolds(db: Db, t: ThreadId, c: Cause) {
    && (c.held ==> HasLock(db, t, c.binding))
    && (c.purpose.Reissue? ==> c.purpose.slot.binding == c.binding)
  }

  ghost predicate ClaimHolds(db: Db, token: Token, c: Claimed) {
    && c.key in db.staged && c.id in db.idOf && db.idOf[c.id] == c.key
    && (c.state == Ready ==>
          && c.key in db.closed && Condemned(db, c.key)
          && (c.key in db.intents ==> db.intents[c.key].state == Ready))
    && (c.state == Provisional && Leased(db.intents, c.key, c.id, token) ==> db.intents[c.key].state == Provisional)
  }

  ghost predicate QueueHolds(db: Db, t: ThreadId, token: Token, queue: seq<Claimed>) {
    && token in db.tokenOwner && db.tokenOwner[token] == t
    && (forall i :: 0 <= i < |queue| ==> ClaimHolds(db, token, queue[i]))
    && (forall i, j :: 0 <= i < j < |queue| ==> queue[i].key != queue[j].key)
  }

  ghost predicate Holds(db: Db, t: ThreadId, th: Thread) {
    match th
    case Locked(s, _) => HasLock(db, t, s.binding)
    case RowsCounted(s, _) => HasLock(db, t, s.binding)
    case Checked(s, _) =>
      HasLock(db, t, s.binding)
      && (forall r :: r in db.rows && r.binding == s.binding && db.rows[r].key in db.intents ==>
            db.rows[r].key in db.invalidated)
    case Issuing(s, _) => HasLock(db, t, s.binding) && FreeSlot(db, s)
    case Issued(s, _, k) => Issues(db, t, s, k) && FreeSlot(db, s) && k !in db.staged
    case Untracked(s, k) => Issues(db, t, s, k)
    case Staged(s, _, k, id) =>
      Issues(db, t, s, k) && FreeSlot(db, s) && k in db.staged && id in db.idOf && db.idOf[id] == k
      && (k in db.intents ==> db.intents[k].id == id)
    case Written(s, k, id) =>
      Issues(db, t, s, k) && k in db.staged && id in db.idOf && db.idOf[id] == k
      && (k in db.intents ==> db.intents[k].id == id)
      && (s in db.rows ==> Expired(db, db.rows[s].key))
    case Finalizing(k, id) =>
      k in db.committed && k in db.info && db.info[k].owner == t
      && id in db.idOf && db.idOf[id] == k
      && (k in db.intents ==> k in db.invalidated || db.intents[k].id == id)
    case Compensating(j) => JobHolds(db, j) && j.key in db.info && db.info[j.key].owner == t
    case Reusing(s, k) =>
      HasLock(db, t, s.binding) && k in db.committed && k in db.info && db.info[k].slot == s
      && (k in db.intents ==> k in db.invalidated)
    case Confirming(d, b, g) =>
      HasLock(db, t, b) && (d.key in db.returned || Expired(db, d.key)) && d.key in db.info && db.info[d.key].slot.binding == b
      && (g != RowLocked ==> db.creds[b].generation == d.versions.generation)
      && (g != RowLocked && g != GenerationMatched ==> Clears(d.versions, FenceOf(db, b, d.consumer)))
      && (g == StatusActive || g == NoRowPending || g == NothingPending ==> db.creds[b].active)
    case IssuingAlone(_) => true
    case IssuedAlone(s, k) =>
      k in db.info && db.info[k].slot == s && db.info[k].owner == t && k !in db.closed && k !in db.staged
    case UntrackedAlone(k) => k in db.info && db.info[k].owner == t && k !in db.committed
    case Listing(c) => CauseHolds(db, t, c)
    case Staging(c, listed, jobs) =>
      CauseHolds(db, t, c) && JobsHold(db, c.binding, jobs) && |jobs| < |listed|
      && (forall i :: 0 <= i < |listed| ==>
            listed[i] in db.committed && listed[i] in db.info && db.info[listed[i]].slot.binding == c.binding)
      && (forall i :: 0 <= i < |jobs| ==> jobs[i].key == listed[i])
      && (c.held ==> forall s :: s in db.rows && s.binding == c.binding ==>
            db.rows[s].key in listed || Expired(db, db.rows[s].key))
    case Marking(c, jobs) => CauseHolds(db, t, c) && JobsHold(db, c.binding, jobs) && (c.held ==> Covered(db, c.binding, jobs))
    case Revoking(c, jobs, index, stage, clean) =>
      CauseHolds(db, t, c) && JobsHold(db, c.binding, jobs) && (c.held ==> Covered(db, c.binding, jobs))
      && index < |jobs| && JobHolds(db, jobs[index].(stage := stage))
      && (clean ==> AllAcked(db, jobs, index))
    case Deleting(c, jobs) =>
      CauseHolds(db, t, c) && JobsHold(db, c.binding, jobs) && (c.held ==> Covered(db, c.binding, jobs))
      && AllAcked(db, jobs, |jobs|)
    case Concluding(c, result) =>
      CauseHolds(db, t, c)
      && (c.held && result != Failure ==> RowsExcused(db, c.binding))
      && (c.held && result == Success ==> forall s :: s in db.rows ==> s.binding != c.binding)
    case Recovering(token, queue) => QueueHolds(db, t, token, queue)
    case RecoveringOne(token, queue, job) =>
      QueueHolds(db, t, token, queue) && JobHolds(db, job) && Condemned(db, job.key) && job.stage != MarkStage
    case Releasing(token, queue, id) => QueueHolds(db, t, token, queue)
  }

  ghost predicate Inv(w: World) {
    Global(w.db) && forall t {:trigger Holds(w.db, t, w.threads[t])} :: t in w.threads ==> Holds(w.db, t, w.threads[t])
  }

  // ---------- What a step of thread t may change ----------

  /** Somebody other than t holds the row lock. */
  ghost predicate LockedByOther(db: Db, t: ThreadId, b: Binding) {
    b in db.locks && db.locks[b] != t
  }

  ghost predicate KeyGrows(db: Db, db': Db, k: Key) {
    && (k in db.info ==> k in db'.info && db'.info[k] == db.info[k])
    && (k in db.staged ==> k in db'.staged) && (k in db.acked ==> k in db'.acked)
    && (k in db.invalidated ==> k in db'.invalidated) && (k in db.barred ==> k in db'.barred)
    && (k in db.closed ==> k in db'.closed) && (k in db.committed ==> k in db'.committed)
    && (k in db.returned ==> k in db'.returned) && (k in db.recovered ==> k in db'.recovered)
    && (k in db.unmarked ==> k in db'.unmarked) && (k in db.compensated ==> k in db'.compensated)
  }

  /** An intent keeps its id, never leaves ready except by revocation, and is leased by its worker only. */
  ghost predicate IntentStep(db: Db, db': Db, t: ThreadId, k: Key) {
    && (k in db.intents && k in db'.intents ==>
          db'.intents[k].id == db.intents[k].id && (IsReady(db, k) ==> IsReady(db', k)))
    && (IsReady(db, k) && k !in db'.intents ==> k in db'.acked)
    && (k in db'.intents && k !in db.intents ==>
          && (k in db'.invalidated || (k !in db.staged && k !in db.closed))
          && (k in db.closed ==> IsReady(db', k)))
    && (k in db'.intents && db'.intents[k].lease.Held? ==>
          || (k in db.intents && db.intents[k] == db'.intents[k])
          || (db'.intents[k].lease.token in db'.tokenOwner && db'.tokenOwner[db'.intents[k].lease.token] == t))
  }

  /** Keys are closed, committed and staged only by the hand of those who may. */
  ghost predicate OwnStep(db: Db, db': Db, t: ThreadId, k: Key) {
    && (k in db'.closed && k !in db.closed ==>
          k in db.info && (db.info[k].owner == t || (k in db.staged && !LockedByOther(db, t, db.info[k].slot.binding))))
    && (k in db'.committed && k !in db.committed ==>
          k in db.info && db.info[k].owner == t && !LockedByOther(db, t, db.info[k].slot.binding))
    && (k in db'.staged && k !in db.staged ==> k in db.info && db.info[k].owner == t)
  }

  ghost predicate KeyStep(db: Db, db': Db, t: ThreadId, k: Key) {
    KeyGrows(db, db', k) && IntentStep(db, db', t, k) && OwnStep(db, db', t, k)
  }

  /** New rows carry a freshly committed key and are written under the row lock of the writer. */
  ghost predicate RowStep(db: Db, db': Db, t: ThreadId, s: Slot) {
    s in db'.rows ==>
      if s in db.rows && db.rows[s].key == db'.rows[s].key then db.rows[s].pending ==> db'.rows[s].pending
      else !LockedByOther(db, t, s.binding) && db'.rows[s].key !in db.closed
  }

  /** A row lock protects the credential row and, because every fence is applied under it, the fences of its binding. */
  ghost predicate LockStep(db: Db, db': Db, t: ThreadId, b: Binding) {
    LockedByOther(db, t, b) ==>
      && b in db'.locks && db'.locks[b] == db.locks[b]
      && (b in db.creds ==> b in db'.creds && db'.creds[b] == db.creds[b])
      && (forall c :: FenceOf(db', b, c) == FenceOf(db, b, c))
  }

  ghost predicate IdStep(db: Db, db': Db, i: IntentId) {
    i in db.idOf ==> i in db'.idOf && db'.idOf[i] == db.idOf[i]
  }

  ghost predicate TokenStep(db: Db, db': Db, x: Token) {
    x in db.tokenOwner ==> x in db'.tokenOwner && db'.tokenOwner[x] == db.tokenOwner[x]
  }

  ghost predicate Guarantee(db: Db, db': Db, t: ThreadId) {
    && db.now <= db'.now
    && (forall k :: KeyStep(db, db', t, k)) && (forall s :: RowStep(db, db', t, s))
    && (forall b :: LockStep(db, db', t, b)) && (forall i :: IdStep(db, db', i))
    && (forall x :: TokenStep(db, db', x))
  }

  // ---------- Stability: what t may change leaves the other threads' facts intact ----------

  lemma ExcusedStable(db: Db, db': Db, k: Key)
    requires db.now <= db'.now && KeyGrows(db, db', k)
    ensures Excused(db, k) ==> Excused(db', k)
    ensures Expired(db, k) ==> Expired(db', k)
  {
  }

  lemma LockStable(db: Db, db': Db, t: ThreadId, u: ThreadId, b: Binding)
    requires LockStep(db, db', t, b) && HasLock(db, u, b) && u != t
    ensures HasLock(db', u, b) && LockedByOther(db, t, b)
  {
  }

  /** Under another thread's lock the rows of a binding only vanish or become pending. */
  lemma RowsStable(db: Db, db': Db, t: ThreadId, b: Binding)
    requires Guarantee(db, db', t) && LockedByOther(db, t, b)
    ensures forall s :: s in db'.rows && s.binding == b ==>
      && s in db.rows && db.rows[s].key == db'.rows[s].key && (db.rows[s].pending ==> db'.rows[s].pending)
      && (Expired(db, db.rows[s].key) ==> Expired(db', db.rows[s].key))
      && (Excused(db, db.rows[s].key) ==> Excused(db', db.rows[s].key))
  {
    forall s | s in db'.rows && s.binding == b
      ensures
        && s in db.rows && db.rows[s].key == db'.rows[s].key && (db.rows[s].pending ==> db'.rows[s].pending)
        && (Expired(db, db.rows[s].key) ==> Expired(db', db.rows[s].key))
        && (Excused(db, db.rows[s].key) ==> Excused(db', db.rows[s].key))
    {
      assert RowStep(db, db', t, s);
      assert KeyStep(db, db', t, db.rows[s].key);
    }
  }

  lemma IssuesStable(db: Db, db': Db, t: ThreadId, u: ThreadId, s: Slot, k: Key)
    requires Guarantee(db, db', t) && u != t && Issues(db, u, s, k)
    ensures Issues(db', u, s, k)
  {
    assert LockStep(db, db', t, s.binding) && KeyStep(db, db', t, k);
  }

  lemma JobStable(db: Db, db': Db, t: ThreadId, j: Job)
    requires Guarantee(db, db', t) && JobHolds(db, j) && KeyHistory(db, j.key)
    ensures JobHolds(db', j)
  {
    assert KeyStep(db, db', t, j.key) && IdStep(db, db', j.id);
    assert RowStep(db, db', t, db.info[j.key].slot);
  }

  lemma JobsStable(db: Db, db': Db, t: ThreadId, b: Binding, jobs: seq<Job>, upTo: nat)
    requires Guarantee(db, db', t) && JobsHold(db, b, jobs)
    ensures JobsHold(db', b, jobs) && (AllAcked(db, jobs, upTo) ==> AllAcked(db', jobs, upTo))
  {
    forall i | 0 <= i < |jobs|
      ensures KeyGrows(db, db', jobs[i].key) && IdStep(db, db', jobs[i].id)
    {
      assert KeyStep(db, db', t, jobs[i].key);
    }
  }

  lemma CauseStable(db: Db, db': Db, t: ThreadId, u: ThreadId, c: Cause)
    requires Guarantee(db, db', t) && CauseHolds(db, u, c) && u != t
    ensures CauseHolds(db', u, c) && (c.held ==> LockedByOther(db, t, c.binding))
  {
    assert LockStep(db, db', t, c.binding);
  }

  lemma QueueStable(db: Db, db': Db, t: ThreadId, u: ThreadId, token: Token, queue: seq<Claimed>)
    requires Guarantee(db, db', t) && u != t && QueueHolds(db, u, token, queue)
    ensures QueueHolds(db', u, token, queue)
  {
    assert TokenStep(db, db', token);
    forall i | 0 <= i < |queue| ensures ClaimHolds(db', token, queue[i]) {
      var c := queue[i];
      assert ClaimHolds(db, token, c);
      assert KeyStep(db, db', t, c.key) && IdStep(db, db', c.id);
      ExcusedStable(db, db', c.key);
    }
  }

  lemma IssuerStable(db: Db, db': Db, t: ThreadId, u: ThreadId, th: Thread)
    requires Global(db) && Global(db') && Holds(db, u, th) && u != t && Guarantee(db, db', t)
    requires th.Locked? || th.RowsCounted? || th.Checked? || th.Issuing? || th.Issued? || th.Untracked? || th.Staged? || th.Written?
    ensures Holds(db', u, th)
  {
    var s := th.slot;
    assert LockStep(db, db', t, s.binding);
    LockStable(db, db', t, u, s.binding);
    RowsStable(db, db', t, s.binding);
    if th.Checked? {
      forall r | r in db'.rows && r.binding == s.binding && db'.rows[r].key in db'.intents
        ensures db'.rows[r].key in db'.invalidated
      {
        assert RowOk(db, r) && KeyOk(db, db.rows[r].key) && KeyStep(db, db', t, db.rows[r].key);
      }
    }
    if th.Issued? || th.Untracked? || th.Staged? || th.Written? {
      IssuesStable(db, db', t, u, s, th.key);
      assert KeyStep(db, db', t, th.key) && KeyOk(db', th.key);
    }
    if th.Staged? || th.Written? { assert IdStep(db, db', th.id); }
  }

  lemma KeeperStable(db: Db, db': Db, t: ThreadId, u: ThreadId, th: Thread)
    requires Global(db) && Holds(db, u, th) && u != t && Guarantee(db, db', t)
    requires th.Finalizing? || th.Reusing?
    ensures Holds(db', u, th)
  {
    assert KeyOk(db, th.key) && KeyStep(db, db', t, th.key);
    if th.Reusing? { assert LockStep(db, db', t, th.slot.binding); } else { assert IdStep(db, db', th.id); }
  }

  lemma LonerStable(db: Db, db': Db, t: ThreadId, u: ThreadId, th: Thread)
    requires Holds(db, u, th) && u != t && Guarantee(db, db', t) && (th.IssuedAlone? || th.UntrackedAlone?)
    ensures Holds(db', u, th)
  {
    assert KeyStep(db, db', t, th.key);
  }

  lemma ConfirmerStable(db: Db, db': Db, t: ThreadId, u: ThreadId, th: Thread)
    requires Holds(db, u, th) && u != t && Guarantee(db, db', t) && th.Confirming?
    ensures Holds(db', u, th)
  {
    assert LockStep(db, db', t, th.binding) && KeyStep(db, db', t, th.delivery.key);
  }

  lemma InvalidatorStable(db: Db, db': Db, t: ThreadId, u: ThreadId, th: Thread)
    requires Global(db) && Holds(db, u, th) && u != t && Guarantee(db, db', t)
    requires Invalidating(th)
    ensures Holds(db', u, th)
  {
    var c := th.cause;
    CauseStable(db, db', t, u, c);
    if c.held { RowsStable(db, db', t, c.binding); }
    match th
    case Staging(_, listed, jobs) =>
      JobsStable(db, db', t, c.binding, jobs, 0);
      forall i | 0 <= i < |listed| ensures KeyGrows(db, db', listed[i]) { assert KeyStep(db, db', t, listed[i]); }
    case Marking(_, jobs) => JobsStable(db, db', t, c.binding, jobs, 0);
    case Revoking(_, jobs, index, stage, _) =>
      JobsStable(db, db', t, c.binding, jobs, index);
      assert KeyOk(db, jobs[index].key);
      JobStable(db, db', t, jobs[index].(stage := stage));
    case Deleting(_, jobs) => JobsStable(db, db', t, c.binding, jobs, |jobs|);
    case _ =>
  }

  lemma Stable(db: Db, db': Db, t: ThreadId, u: ThreadId, th: Thread)
    requires Global(db) && Global(db') && Holds(db, u, th) && u != t && Guarantee(db, db', t)
    ensures Holds(db', u, th)
  {
    if Invalidating(th) { InvalidatorStable(db, db', t, u, th); }
    else if th.Finalizing? || th.Reusing? { KeeperStable(db, db', t, u, th); }
    else if th.Confirming? { ConfirmerStable(db, db', t, u, th); }
    else if th.IssuingAlone? { }
    else if th.IssuedAlone? || th.UntrackedAlone? { LonerStable(db, db', t, u, th); }
    else if th.Compensating? {
      assert KeyOk(db, th.job.key) && KeyStep(db, db', t, th.job.key);
      JobStable(db, db', t, th.job);
    } else if th.Recovering? || th.RecoveringOne? || th.Releasing? {
      QueueStable(db, db', t, u, th.token, th.queue);
      if th.RecoveringOne? {
        assert KeyOk(db, th.job.key) && KeyStep(db, db', t, th.job.key);
        JobStable(db, db', t, th.job);
        ExcusedStable(db, db', th.job.key);
      }
    } else { IssuerStable(db, db', t, u, th); }
  }

}
