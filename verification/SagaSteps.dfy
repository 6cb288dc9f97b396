/**
 The step relation: one action is one statement, one upstream call, one commit or one crash.
 Writes that go through `r.db` take effect at once; writes of a transaction wait for its commit.
 */
module SagaSteps {
  import opened Authorization
  import opened SagaState

  /** Lost: the effect happened but the caller was told it failed. */
  datatype Outcome = Done | Failed | Lost

  datatype Event =
    | Elapse(seconds: nat)
    | Bind(binding: Binding, generation: nat)
    | Revalidate(binding: Binding, active: bool)
    | DeleteExpired(before: nat)
    | DeleteExpiredRow(slot: Slot)

  datatype Request =
    | GetAuthKey(slot: Slot)
    | ConfirmDeliverable(delivery: Delivery)
    | ControlOperation(binding: Binding, effect: Effect)
    | Validate(binding: Binding)
    | InvalidateUnlocked(binding: Binding)
    | RetryPending(token: Token, keys: seq<Key>, at: nat)

  datatype Move =
    | FindInactive
    | CountPendingRows
    | CountIntents
    | ReadArtifact
    | UpstreamIssues(key: Key, expires: nat)
    | UpstreamRejects
    | Stage(id: IntentId, outcome: Outcome)
    | RevokeUntracked(outcome: Outcome)
    | WriteRow
    | Abandon
    | PassGate
    | Commit(outcome: Outcome)
    | Finalize(outcome: Outcome)
    | Revoke(outcome: Outcome)
    | ListRows(keys: seq<Key>)
    | ListFails
    | MarkRows(outcome: Outcome)
    | DeleteRows(outcome: Outcome)
    | InvalidateAgain
    | Resolve(outcome: Outcome)
    | TakeReady
    | Release(outcome: Outcome)
    | Finish
    | Crash
    | LoseTransaction
    | CutOff
    | IssueAlone(key: Key, expires: nat)
    | StageAlone(id: IntentId, outcome: Outcome)
    | RevokeAlone(outcome: Outcome)

  datatype Action =
    | Happen(event: Event)
    | Begin(t: ThreadId, request: Request)
    | Act(t: ThreadId, move: Move)

  datatype Option<T> = None | Some(value: T)

  /** What one step leaves: the database and the actor's next phase (None when the request is over). */
  datatype After = After(db: Db, thread: Option<Thread>)

  // ---------- Events ----------

  predicate CanHappen(db: Db, e: Event) {
    match e
    case Elapse(_) => true
    case Bind(b, _) => b !in db.creds && b !in db.locks
    case Revalidate(b, _) => LockFree(db, b)
    case DeleteExpired(before) => before <= db.now
    case DeleteExpiredRow(s) => s in db.rows && Expired(db, db.rows[s].key)
  }

  function FenceOf(db: Db, b: Binding, c: Consumer): Fence {
    if (b, c) in db.fences then db.fences[(b, c)] else OPEN_FENCE
  }

  function HappenTo(db: Db, e: Event): Db
    requires CanHappen(db, e)
  {
    match e
    case Elapse(seconds) => db.(now := db.now + seconds)
    case Bind(b, g) => db.(creds := db.creds[b := Credential(g, true)])
    case Revalidate(b, active) => db.(creds := db.creds[b := db.creds[b].(active := active)])
    case DeleteExpired(before) => db.(rows := DropExpired(db, before))
    case DeleteExpiredRow(s) => db.(rows := db.rows - {s})
  }

  // ---------- Requests ----------

  predicate CanBegin(db: Db, t: ThreadId, r: Request) {
    match r
    case GetAuthKey(s) => s.binding in db.creds && s.binding !in db.locks
    case ConfirmDeliverable(d) =>
      // Only a key that GetAuthKey gave out, if only as an expired one, comes to its confirmation.
      (d.key in db.returned || Expired(db, d.key)) && d.key in db.info && LockFree(db, db.info[d.key].slot.binding)
    case ControlOperation(b, _) => b in db.creds && b !in db.locks
    case Validate(b) => b in db.creds && b !in db.locks
    case InvalidateUnlocked(_) => true
    case RetryPending(token, keys, at) =>
      && token !in db.tokenOwner && at <= db.now && |keys| <= CLAIM_LIMIT
      && (forall i, j :: 0 <= i < j < |keys| ==> keys[i] != keys[j])
      && (forall i :: 0 <= i < |keys| ==> keys[i] in db.intents && Claimable(db.intents[keys[i]], at))
  }

  /** `SELECT ... FOR UPDATE` of an existing credential row goes through. */
  predicate LockFree(db: Db, b: Binding) {
    b in db.creds && b !in db.locks
  }

  function Snapshot(intents: map<Key, Intent>, keys: seq<Key>): (queue: seq<Claimed>)
    requires forall i :: 0 <= i < |keys| ==> keys[i] in intents
    ensures |queue| == |keys|
    ensures forall i :: 0 <= i < |keys| ==>
      queue[i] == Claimed(keys[i], intents[keys[i]].id, intents[keys[i]].state)
  {
    seq(|keys|, i requires 0 <= i < |keys| => Claimed(keys[i], intents[keys[i]].id, intents[keys[i]].state))
  }

  function BeginIn(db: Db, t: ThreadId, r: Request): After
    requires CanBegin(db, t, r)
  {
    match r
    case GetAuthKey(s) =>
      After(db.(locks := db.locks[s.binding := t]), Some(Locked(s, db.creds[s.binding].generation)))
    case ConfirmDeliverable(d) =>
      var b := db.info[d.key].slot.binding;
      After(db.(locks := db.locks[b := t]), Some(Confirming(d, b, RowLocked)))
    case ControlOperation(b, e) =>
      After(db.(locks := db.locks[b := t]), Some(Listing(Cause(b, true, Control(e)))))
    case Validate(b) =>
      After(db.(locks := db.locks[b := t]), Some(Listing(Cause(b, true, Attention))))
    case InvalidateUnlocked(b) => After(db, Some(Listing(Cause(b, false, Standalone))))
    case RetryPending(token, keys, at) =>
      After(db.(intents := LeaseAll(db.intents, keys, Held(token, at + REVOCATION_LEASE)),
                tokenOwner := db.tokenOwner[token := t]),
            Some(Recovering(token, Snapshot(db.intents, keys))))
  }

  // ---------- Moves ----------

  predicate SameFences(db: Db, db': Db) {
    db'.fences == db.fences && db'.delivered == db.delivered && db'.info == db.info
  }

  /** Neither fences nor deliveries nor what upstream issued nor what compensation did have changed. */
  predicate SameOutside(db: Db, db': Db) {
    SameFences(db, db') && db'.unmarked == db.unmarked && db'.compensated == db.compensated
  }

  /** The binding whose row lock the thread believes it holds. */
  function LockOf(th: Thread): Option<Binding> {
    match th
    case Locked(s, _) => Some(s.binding)
    case RowsCounted(s, _) => Some(s.binding)
    case Checked(s, _) => Some(s.binding)
    case Issuing(s, _) => Some(s.binding)
    case Issued(s, _, _) => Some(s.binding)
    case Untracked(s, _) => Some(s.binding)
    case Staged(s, _, _, _) => Some(s.binding)
    case Written(s, _, _) => Some(s.binding)
    case Reusing(s, _) => Some(s.binding)
    case Listing(c) => LockOfCause(c)
    case Staging(c, _, _) => LockOfCause(c)
    case Marking(c, _) => LockOfCause(c)
    case Revoking(c, _, _, _, _) => LockOfCause(c)
    case Deleting(c, _) => LockOfCause(c)
    case Concluding(c, _) => LockOfCause(c)
    case Confirming(_, b, _) => Some(b)
    case IssuingAlone(_) => None
    case IssuedAlone(_, _) => None
    case UntrackedAlone(_) => None
    case Finalizing(_, _) => None
    case Compensating(_) => None
    case Recovering(_, _) => None
    case RecoveringOne(_, _, _) => None
    case Releasing(_, _, _) => None
  }

  function LockOfCause(c: Cause): Option<Binding> {
    if c.held then Some(c.binding) else None
  }

  /** The transaction of a thread ends: its row lock, if any, is released. */
  function Ended(db: Db, th: Thread): (r: Db)
    ensures SameOutside(db, r)
  {
    match LockOf(th)
    case Some(b) => Unlock(db, b)
    case None => db
  }

  /** The same InvalidateBinding after its transaction was rolled back under it. */
  function Unheld(th: Thread): Thread {
    match th
    case Listing(c) => Listing(c.(held := false))
    case Staging(c, l, j) => Staging(c.(held := false), l, j)
    case Marking(c, j) => Marking(c.(held := false), j)
    case Revoking(c, j, i, s, k) => Revoking(c.(held := false), j, i, s, k)
    case Deleting(c, j) => Deleting(c.(held := false), j)
    case Concluding(c, r) => Concluding(c.(held := false), r)
    case _ => th
  }

  predicate Invalidating(th: Thread) {
    th.Listing? || th.Staging? || th.Marking? || th.Revoking? || th.Deleting? || th.Concluding?
  }

  /** ListByBindingRef inside the caller's transaction; rows it already deleted as expired are not seen. */
  predicate Lists(db: Db, b: Binding, keys: seq<Key>) {
    && (forall i :: 0 <= i < |keys| ==> IsKeyOf(db, b, keys[i]))
    && (forall s :: s in db.rows && s.binding == b ==> db.rows[s].key in keys || Expired(db, db.rows[s].key))
  }

  predicate ResolveNeedsLock(db: Db, claimed: Claimed, token: Token) {
    Leased(db.intents, claimed.key, claimed.id, token) && claimed.key in db.info
    && db.info[claimed.key].slot.binding in db.creds
  }

  /** The read that stands behind the next gate; when it says no, the transaction is rolled back. */
  predicate Passes(db: Db, th: Thread)
    requires th.Confirming?
  {
    match th.gate
    case RowLocked => th.binding in db.creds && db.creds[th.binding].generation == th.delivery.versions.generation
    case GenerationMatched => Clears(th.delivery.versions, FenceOf(db, th.binding, th.delivery.consumer))
    case FenceCleared => th.binding in db.creds && db.creds[th.binding].active
    case StatusActive => !HasPendingRow(db.rows, th.binding)
    case NoRowPending => !HasIntent(db, th.binding)
    case NothingPending => false
  }

  function NextGate(g: Gate): Gate {
    match g
    case RowLocked => GenerationMatched
    case GenerationMatched => FenceCleared
    case FenceCleared => StatusActive
    case StatusActive => NoRowPending
    case NoRowPending => NothingPending
    case NothingPending => NothingPending
  }

  predicate Can(db: Db, t: ThreadId, th: Thread, m: Move) {
    match m
    case FindInactive => th.Locked? && th.slot.binding in db.creds && !db.creds[th.slot.binding].active
    case CountPendingRows =>
      th.Locked? && th.slot.binding in db.creds && db.creds[th.slot.binding].active
      && !HasPendingRow(db.rows, th.slot.binding)
    case CountIntents => th.RowsCounted? && !HasIntent(db, th.slot.binding)
    case ReadArtifact => th.Checked?
    case UpstreamIssues(key, expires) => th.Issuing? && key !in db.info && expires > db.now
    case UpstreamRejects => th.Issuing?
    case Stage(id, _) => (th.Issued? || (th.Staging? && |th.jobs| < |th.listed|)) && id !in db.idOf
    case RevokeUntracked(_) => th.Untracked?
    case WriteRow =>
      th.Staged? && th.slot.binding in db.creds && db.creds[th.slot.binding] == Credential(th.generation, true)
      && !HasPendingRow(db.rows, th.slot.binding)
    case Abandon => th.Staged? || th.Written?
    case PassGate => th.Confirming? && th.gate != NothingPending && Passes(db, th)
    case Commit(_) => th.Written? || th.Reusing? || th.Concluding? || (th.Confirming? && th.gate == NothingPending)
    case Finalize(_) => th.Finalizing?
    case Revoke(_) => th.Compensating? || th.RecoveringOne? || (th.Revoking? && th.index < |th.jobs|)
    case ListRows(keys) => th.Listing? && Lists(db, th.cause.binding, keys)
    case ListFails => th.Listing?
    case MarkRows(_) => th.Marking?
    case DeleteRows(_) => th.Deleting?
    case InvalidateAgain => th.Concluding? && th.cause.purpose == Control(Refresh) && th.result != Failure
    case Resolve(outcome) =>
      th.Recovering? && |th.queue| > 0 && th.queue[0].state == Provisional
      && (outcome != Failed && ResolveNeedsLock(db, th.queue[0], th.token) ==>
            db.info[th.queue[0].key].slot.binding !in db.locks)
    case TakeReady => th.Recovering? && |th.queue| > 0 && th.queue[0].state == Ready
    case Release(_) => th.Releasing?
    case Finish => th.Recovering? && |th.queue| == 0
    case Crash => true
    case LoseTransaction => Invalidating(th) && th.cause.held
    case CutOff => th.Issuing? || th.Issued? || th.Untracked?
    case IssueAlone(key, expires) => th.IssuingAlone? && key !in db.info && expires > db.now
    case StageAlone(id, _) => th.IssuedAlone? && id !in db.idOf
    case RevokeAlone(_) => th.UntrackedAlone?
  }

  /** The steps after which the thread holds no lock, without any commit. */
  predicate Ends(m: Move) {
    m.Abandon? || m.RevokeUntracked? || m.Crash? || m.LoseTransaction? || m.CutOff?
  }

  /** The steps that read, decide or ask upstream for a key. */
  predicate Looks(m: Move) {
    m.FindInactive? || m.CountPendingRows? || m.CountIntents? || m.ReadArtifact? || m.UpstreamIssues? || m.UpstreamRejects?
    || m.WriteRow? || m.PassGate? || m.ListRows? || m.ListFails? || m.InvalidateAgain? || m.Finish? || m.TakeReady?
  }

  /** The steps around an issuer whose transaction was rolled back under it. */
  predicate Alone(m: Move) {
    m.CutOff? || m.IssueAlone? || m.StageAlone? || m.RevokeAlone?
  }

  function ReadStored(db: Db, s: Slot, generation: nat): Thread {
    if s !in db.rows || db.rows[s].pending || Expired(db, db.rows[s].key) then Issuing(s, generation)
    else if db.rows[s].key in db.info && db.info[db.rows[s].key].expires < db.now + MINIMUM_RETURN_TTL then
      Listing(Cause(s.binding, true, Reissue(s, generation)))
    else Reusing(s, db.rows[s].key)
  }

  function IssueIn(db: Db, t: ThreadId, s: Slot, key: Key, expires: nat): Db {
    db.(info := db.info[key := KeyInfo(s, expires, t)])
  }

  /** RevokeUntrackedAuthKey, after which the transaction rolls back. */
  function UntrackedIn(db: Db, th: Thread, outcome: Outcome): (r: Db)
    requires th.Untracked?
    ensures SameOutside(db, r)
  {
    Unlock(db, th.slot.binding).(acked := if outcome == Done then db.acked + {th.key} else db.acked)
  }

  function StageIn(db: Db, key: Key, id: IntentId, state: IntentState): (r: Db)
    ensures SameOutside(db, r)
  {
    var candidate := Intent(id, state, if state == Ready then db.now else db.now + PROVISIONAL_RECOVERY_DELAY, Free);
    var intents := UpsertIntent(db.intents, key, candidate);
    db.(intents := intents,
        idOf := if key in db.intents then db.idOf else db.idOf[id := key],
        staged := db.staged + {key},
        invalidated := if state == Ready then db.invalidated + {key} else db.invalidated)
  }

  function MarkIn(db: Db, key: Key, id: IntentId): Db {
    db.(intents := MarkReady(db.intents, id, db.now),
        barred := if key in db.intents && db.intents[key].id == id && db.intents[key].state == Provisional
                  then db.barred + {key} else db.barred)
  }

  function CallIn(db: Db, key: Key, outcome: Outcome, recovery: bool): Db {
    db.(acked := if outcome == Done then db.acked + {key} else db.acked,
        recovered := if recovery && !Expired(db, key) then db.recovered + {key} else db.recovered)
  }

  function RowIn(db: Db, key: Key): Db {
    if key in db.info then db.(rows := DropRow(db.rows, db.info[key].slot, key)) else db
  }

  function IntentIn(db: Db, id: IntentId): Db {
    db.(intents := DropIntent(db.intents, id))
  }

  /** One statement of revokeIssuedArtifact: it takes no lock, touches no credential and adds neither row nor intent. */
  function RevokeIn(db: Db, job: Job, outcome: Outcome, recovery: bool): (r: Db)
    ensures r.locks == db.locks && r.creds == db.creds && r.now == db.now
    ensures SameOutside(db, r)
    ensures forall s :: s in r.rows ==> s in db.rows && r.rows[s] == db.rows[s]
    ensures forall k :: k in r.intents ==> k in db.intents
  {
    match job.stage
    case MarkStage => if outcome == Failed then db else MarkIn(db, job.key, job.id)
    case CallStage => CallIn(db, job.key, outcome, recovery)
    case RowStage => if outcome == Failed then db else RowIn(db, job.key)
    case IntentStage => if outcome == Failed then db else IntentIn(db, job.id)
  }

  function NextStage(s: Stage): Stage {
    match s
    case MarkStage => CallStage
    case CallStage => RowStage
    case RowStage => IntentStage
    case IntentStage => IntentStage
  }

  function ApplyEffect(db: Db, b: Binding, e: Effect): Db
    requires b in db.creds
  {
    match e
    case ApplyFence(c, f) => db.(fences := db.fences[(b, c) := Join(FenceOf(db, b, c), f)])
    case Refresh => db.(creds := db.creds[b := Credential(db.creds[b].generation + 1, true)])
    case Replace => db.(creds := db.creds[b := Credential(db.creds[b].generation + 1, true)],
                        rows := DropBinding(db.rows, b))
    case Delete => db.(creds := db.creds - {b}, rows := DropBinding(db.rows, b))
  }

  /** What the caller of InvalidateBinding does with its result. */
  function ConcludeIn(db: Db, th: Thread, outcome: Outcome): After
    requires th.Concluding?
  {
    var b := th.cause.binding;
    var commits := th.cause.held && outcome != Failed && b in db.creds;
    match th.cause.purpose
    case Reissue(s, g) =>
      // Nothing from here to the upstream call needs the transaction, should it be gone.
      if th.result != Success then After(Ended(db, th), None)
      else After(db, Some(if th.cause.held then Issuing(s, g) else IssuingAlone(s)))
    case Refuse => After(Ended(db, th), None)
    case Attention =>
      var written := if commits then db.(creds := db.creds[b := db.creds[b].(active := false)]) else db;
      After(Ended(written, th), None)
    case Control(e) =>
      var written := if commits && th.result != Failure then ApplyEffect(db, b, e) else db;
      After(Ended(written, th), None)
    case Standalone => After(Ended(db, th), None)
  }

  /** The buffered artifact row becomes visible and the row lock is released. */
  function RowCommittedIn(db: Db, s: Slot, key: Key): (r: Db)
    ensures SameOutside(db, r)
  {
    Unlock(db, s.binding).(closed := db.closed + {key}, committed := db.committed + {key},
                           rows := db.rows[s := Row(key, false)])
  }

  function CommitIn(db: Db, th: Thread, outcome: Outcome): (r: After)
    requires th.Written? || th.Reusing? || th.Concluding? || th.Confirming?
    ensures th.Written? || th.Reusing? ==> SameOutside(db, r.db)
  {
    match th
    case Written(s, key, id) =>
      if outcome == Failed then
        After(Unlock(db, s.binding).(closed := db.closed + {key}), Some(Compensating(Job(key, id, MarkStage))))
      else
        After(RowCommittedIn(db, s, key),
              Some(if outcome == Lost then Compensating(Job(key, id, MarkStage)) else Finalizing(key, id)))
    case Reusing(s, key) =>
      After(if outcome == Done then Returned(Ended(db, th), key) else Ended(db, th), None)
    case Concluding(_, _) => ConcludeIn(db, th, outcome)
    // The response goes out only after a commit that the service saw succeed.
    case Confirming(d, _, _) =>
      After(if outcome == Done then Ended(db, th).(delivered := db.delivered + {d}) else Ended(db, th), None)
  }

  function Returned(db: Db, key: Key): (r: Db)
    ensures SameOutside(db, r)
  {
    if Expired(db, key) then db else db.(returned := db.returned + {key})
  }

  function FinalizeIn(db: Db, key: Key, id: IntentId, outcome: Outcome): (r: After)
    ensures SameOutside(db, r.db)
  {
    var compensate := Some(Compensating(Job(key, id, MarkStage)));
    if outcome == Failed || FinalizeRefused(db.intents, id) then After(db, compensate)
    else
      var dropped := db.(intents := DropIntent(db.intents, id));
      if outcome == Lost then After(dropped, compensate) else After(Returned(dropped, key), None)
  }

  /** After the revocation of `jobs[index]` ended well or badly, go on with the next intent. */
  function NextJob(cause: Cause, jobs: seq<Job>, index: nat, clean: bool): Thread {
    if index < |jobs| then Revoking(cause, jobs, index, MarkStage, clean)
    else if clean then Deleting(cause, jobs)
    else Concluding(cause, RevocationPending)
  }

  /**
   The same statement run by a failed request for its own key. When the mark finds no intent, the update
   touches no row and reports no error, and the request goes on.
   */
  function CompensateIn(db: Db, job: Job, outcome: Outcome): (r: Db)
    ensures r == RevokeIn(db, job, outcome, false).(unmarked := r.unmarked, compensated := r.compensated)
    ensures SameFences(db, r)
  {
    RevokeIn(db, job, outcome, false).(
      unmarked := if job.stage == MarkStage && outcome == Done && !Stored(db.intents, job.id)
                  then db.unmarked + {job.key} else db.unmarked,
      compensated := if job.stage == CallStage && !Expired(db, job.key)
                     then db.compensated + {job.key} else db.compensated)
  }

  function RevokeNext(db: Db, th: Thread, outcome: Outcome): (r: After)
    requires th.Compensating? || th.RecoveringOne? || (th.Revoking? && th.index < |th.jobs|)
    ensures SameFences(db, r.db) && (!th.Compensating? ==> SameOutside(db, r.db))
  {
    match th
    case Compensating(job) =>
      After(CompensateIn(db, job, outcome),
            if outcome == Done && job.stage != IntentStage then Some(Compensating(job.(stage := NextStage(job.stage))))
            else None)
    case RecoveringOne(token, queue, job) =>
      After(RevokeIn(db, job, outcome, true),
            Some(if outcome != Done then Releasing(token, queue, job.id)
                 else if job.stage == IntentStage then Recovering(token, queue)
                 else RecoveringOne(token, queue, job.(stage := NextStage(job.stage)))))
    case Revoking(cause, jobs, index, stage, clean) =>
      After(RevokeIn(db, jobs[index].(stage := stage), outcome, false),
            Some(if outcome == Done && stage != IntentStage then Revoking(cause, jobs, index, NextStage(stage), clean)
                 else NextJob(cause, jobs, index + 1, clean && outcome == Done)))
  }

  function StageNext(db: Db, th: Thread, id: IntentId, outcome: Outcome): (r: After)
    requires th.Issued? || (th.Staging? && |th.jobs| < |th.listed|)
    ensures SameOutside(db, r.db)
  {
    match th
    case Issued(s, g, key) =>
      var stored := if outcome == Failed then db else StageIn(db, key, id, Provisional);
      After(stored, Some(if outcome == Done then Staged(s, g, key, id) else Untracked(s, key)))
    case Staging(cause, listed, jobs) =>
      var key := listed[|jobs|];
      var stored := if outcome == Failed then db else StageIn(db, key, id, Ready);
      // The upsert returns the identifier of the row that was already there.
      var persisted := if key in db.intents then db.intents[key].id else id;
      After(stored, Some(
        if outcome != Done then Concluding(cause, Failure)
        else StagedAll(cause, listed, jobs + [Job(key, persisted, MarkStage)])))
  }

  function StagedAll(cause: Cause, listed: seq<Key>, jobs: seq<Job>): Thread {
    if |jobs| < |listed| then Staging(cause, listed, jobs) else Marking(cause, jobs)
  }

  function MarkRowsIn(db: Db, th: Thread, outcome: Outcome): (r: After)
    requires th.Marking?
    ensures SameOutside(db, r.db)
  {
    After(if outcome == Failed then db else db.(rows := RowsPending(db.rows, th.cause.binding)),
          Some(if outcome == Done then NextJob(th.cause, th.jobs, 0, true)
               else Concluding(th.cause, if |th.jobs| > 0 then RevocationPending else Failure)))
  }

  function DeleteRowsIn(db: Db, th: Thread, outcome: Outcome): (r: After)
    requires th.Deleting?
    ensures SameOutside(db, r.db)
  {
    After(if outcome == Failed then db else db.(rows := DropBinding(db.rows, th.cause.binding)),
          Some(Concluding(th.cause, if outcome == Done then Success else Failure)))
  }

  /** The issuing transaction left no visible row: the intent becomes ready and keeps its lease. */
  function CondemnIn(db: Db, key: Key): (r: Db)
    requires key in db.intents
    ensures SameOutside(db, r)
  {
    db.(intents := db.intents[key := db.intents[key].(state := Ready)],
        barred := db.barred + {key}, closed := db.closed + {key})
  }

  function ReleasedIn(db: Db, id: IntentId, token: Token, outcome: Outcome): (r: Db)
    ensures SameOutside(db, r)
  {
    if outcome == Failed then db else db.(intents := ReleaseClaim(db.intents, id, token))
  }

  function ResolveIn(db: Db, th: Thread, outcome: Outcome): (r: After)
    requires th.Recovering? && |th.queue| > 0
    ensures SameOutside(db, r.db)
  {
    var claimed, rest := th.queue[0], th.queue[1..];
    var release := Some(Releasing(th.token, rest, claimed.id));
    if outcome == Failed then After(db, release)
    else if !Leased(db.intents, claimed.key, claimed.id, th.token) then
      After(db, if outcome == Lost then release else Some(Recovering(th.token, rest)))
    else if KeptByRow(db, claimed.key) then
      After(db.(intents := db.intents - {claimed.key}),
            if outcome == Lost then release else Some(Recovering(th.token, rest)))
    else
      After(CondemnIn(db, claimed.key),
            if outcome == Lost then release
            else Some(RecoveringOne(th.token, rest, Job(claimed.key, claimed.id, CallStage))))
  }

  /** The phase of an issuer whose transaction has just been rolled back. */
  function LeftAlone(th: Thread): Thread
    requires th.Issuing? || th.Issued? || th.Untracked?
  {
    match th
    case Issuing(s, _) => IssuingAlone(s)
    case Issued(s, _, key) => IssuedAlone(s, key)
    case Untracked(_, key) => UntrackedAlone(key)
  }

  /**
   The staging writes outside the transaction, so it does not notice that this is gone; storing the row does,
   and the request goes on to its compensation.
   */
  function StageAloneIn(db: Db, key: Key, id: IntentId, outcome: Outcome): (r: After)
    ensures SameOutside(db, r.db)
  {
    var stored := if outcome == Failed then db else StageIn(db, key, id, Provisional);
    if outcome == Done then After(stored.(closed := db.closed + {key}), Some(Compensating(Job(key, id, MarkStage))))
    else After(stored, Some(UntrackedAlone(key)))
  }

  function AloneIn(db: Db, t: ThreadId, th: Thread, m: Move): After
    requires Alone(m) && Can(db, t, th, m)
  {
    match m
    case CutOff => After(Ended(db, th), Some(LeftAlone(th)))
    case IssueAlone(key, expires) => After(IssueIn(db, t, th.slot, key, expires), Some(IssuedAlone(th.slot, key)))
    case StageAlone(id, outcome) => StageAloneIn(db, th.key, id, outcome)
    case RevokeAlone(outcome) => After(db.(acked := if outcome == Done then db.acked + {th.key} else db.acked), None)
  }

  function MoveIn(db: Db, t: ThreadId, th: Thread, m: Move): After
    requires Can(db, t, th, m)
  {
    match m
    case FindInactive => After(db, Some(Listing(Cause(th.slot.binding, true, Refuse))))
    case CountPendingRows => After(db, Some(RowsCounted(th.slot, th.generation)))
    case CountIntents => After(db, Some(Checked(th.slot, th.generation)))
    case ReadArtifact => After(db, Some(ReadStored(db, th.slot, th.generation)))
    case UpstreamIssues(key, expires) =>
      After(IssueIn(db, t, th.slot, key, expires), Some(Issued(th.slot, th.generation, key)))
    case UpstreamRejects => After(db, Some(Listing(Cause(th.slot.binding, true, Attention))))
    case Stage(id, outcome) => StageNext(db, th, id, outcome)
    case RevokeUntracked(outcome) => After(UntrackedIn(db, th, outcome), None)
    case WriteRow => After(db, Some(Written(th.slot, th.key, th.id)))
    case Abandon =>
      After(Ended(db, th).(closed := db.closed + {th.key}), Some(Compensating(Job(th.key, th.id, MarkStage))))
    case PassGate => After(db, Some(th.(gate := NextGate(th.gate))))
    case Commit(outcome) => CommitIn(db, th, outcome)
    case Finalize(outcome) => FinalizeIn(db, th.key, th.id, outcome)
    case Revoke(outcome) => RevokeNext(db, th, outcome)
    case ListRows(keys) => After(db, Some(StagedAll(th.cause, keys, [])))
    case ListFails => After(db, Some(Concluding(th.cause, Failure)))
    case MarkRows(outcome) => MarkRowsIn(db, th, outcome)
    case DeleteRows(outcome) => DeleteRowsIn(db, th, outcome)
    case InvalidateAgain => After(db, Some(Listing(th.cause)))
    case Resolve(outcome) => ResolveIn(db, th, outcome)
    case TakeReady =>
      After(db, Some(RecoveringOne(th.token, th.queue[1..], Job(th.queue[0].key, th.queue[0].id, CallStage))))
    case Release(outcome) =>
      After(ReleasedIn(db, th.id, th.token, outcome), Some(Recovering(th.token, th.queue)))
    case Finish => After(db, None)
    case Crash => After(Ended(db, th), None)
    case LoseTransaction => After(Ended(db, th), Some(Unheld(th)))
    case _ => AloneIn(db, t, th, m)
  }

  // ---------- Worlds and runs ----------

  predicate Enabled(w: World, a: Action) {
    match a
    case Happen(e) => CanHappen(w.db, e)
    case Begin(t, r) => t !in w.threads && CanBegin(w.db, t, r)
    case Act(t, m) => t in w.threads && Can(w.db, t, w.threads[t], m)
  }

  function Put(threads: map<ThreadId, Thread>, t: ThreadId, th: Option<Thread>): map<ThreadId, Thread> {
    match th
    case Some(next) => threads[t := next]
    case None => threads - {t}
  }

  /** An action that is not enabled leaves the world as it is; runs have none. */
  function Apply(w: World, a: Action): World {
    if !Enabled(w, a) then w else
    match a
    case Happen(e) => World(HappenTo(w.db, e), w.threads)
    case Begin(t, r) =>
      var after := BeginIn(w.db, t, r);
      World(after.db, Put(w.threads, t, after.thread))
    case Act(t, m) =>
      var after := MoveIn(w.db, t, w.threads[t], m);
      World(after.db, Put(w.threads, t, after.thread))
  }

  /** Every artifact row of the binding carries a key this invalidation has staged, or has expired. */
  predicate Covered(db: Db, b: Binding, jobs: seq<Job>) {
    forall s :: s in db.rows && s.binding == b ==>
      (exists i :: 0 <= i < |jobs| && jobs[i].key == db.rows[s].key) || Expired(db, db.rows[s].key)
  }

  predicate Runs(w: World, actions: seq<Action>)
    decreases |actions|
  {
    |actions| == 0 || (Enabled(w, actions[0]) && Runs(Apply(w, actions[0]), actions[1..]))
  }

  function Final(w: World, actions: seq<Action>): World
    decreases |actions|
  {
    if |actions| == 0 then w else Final(Apply(w, actions[0]), actions[1..])
  }

}
