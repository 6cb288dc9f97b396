/**
 The database, the upstream service and the request threads of Platform Mihomo's
 authkey saga, with one function for each statement the repositories run.
 */
module SagaState {
  import opened Authorization

  type Binding = nat
  type Consumer = nat
  type ThreadId = nat
  type IntentId = nat
  type Token = nat
  /** One authkey issued upstream; its ciphertext is fresh, so the two share a name. */
  type Key = nat

  /** The unique index of runtime_artifacts: one authkey for each profile of a binding. */
  datatype Slot = Slot(binding: Binding, profile: nat)

  const PROVISIONAL_RECOVERY_DELAY: nat := 30
  const REVOCATION_LEASE: nat := 30
  const MINIMUM_RETURN_TTL: nat := 5
  const CLAIM_LIMIT: nat := 100

  datatype Lease = Free | Held(token: Token, expires: nat)
  datatype IntentState = Provisional | Ready
  datatype Intent = Intent(id: IntentId, state: IntentState, readyAfter: nat, lease: Lease)
  datatype Row = Row(key: Key, pending: bool)
  datatype Credential = Credential(generation: nat, active: bool)
  /** What is fixed when upstream issues a key: where it belongs, until when it lives, who asked. */
  datatype KeyInfo = KeyInfo(slot: Slot, expires: nat, owner: ThreadId)
  datatype Delivery = Delivery(key: Key, consumer: Consumer, versions: Versions)

  /**
   Committed tables first, then row locks, then what has happened so far.
   `intents` is keyed by the key because (binding, type, scope, value) is unique.
   */
  datatype Db = Db(
    now: nat,
    creds: map<Binding, Credential>,
    rows: map<Slot, Row>,
    intents: map<Key, Intent>,
    fences: map<(Binding, Consumer), Fence>,
    locks: map<Binding, ThreadId>,
    info: map<Key, KeyInfo>,
    idOf: map<IntentId, Key>,
    tokenOwner: map<Token, ThreadId>,
    staged: set<Key>,       // a revocation intent for the key was stored at some time
    acked: set<Key>,        // upstream acknowledged the revocation of the key
    invalidated: set<Key>,  // some InvalidateBinding staged the key
    barred: set<Key>,       // compensation or recovery turned the key's provisional intent ready
    closed: set<Key>,       // the issuer of the key has left its transaction, or recovery has found it over
    committed: set<Key>,    // an artifact row carrying the key was committed
    returned: set<Key>,     // GetAuthKey returned the key while it was unexpired
    recovered: set<Key>,    // RetryPending asked upstream to revoke the key while it was unexpired
    delivered: set<Delivery>,
    unmarked: set<Key>,     // a compensation went on although its mark found no intent of the key
    compensated: set<Key>)  // a compensation asked upstream to revoke the key while it was unexpired

  const EMPTY_DB := Db(0, map[], map[], map[], map[], map[], map[], map[], map[],
                       {}, {}, {}, {}, {}, {}, {}, {}, {}, {}, {})

  // ---------- Threads ----------

  datatype Stage = MarkStage | CallStage | RowStage | IntentStage

  /** Where revokeIssuedArtifact stands for one intent. */
  datatype Job = Job(key: Key, id: IntentId, stage: Stage)

  /** How far ConfirmDeliverable has come: each gate is one read, passed in this order under the row lock. */
  datatype Gate = RowLocked | GenerationMatched | FenceCleared | StatusActive | NoRowPending | NothingPending

  datatype Effect =
    | ApplyFence(consumer: Consumer, fence: Fence)
    | Refresh
    | Replace
    | Delete

  /** What the caller of InvalidateBinding does next. */
  datatype Purpose =
    | Reissue(slot: Slot, generation: nat)
    | Refuse
    | Attention
    | Control(effect: Effect)
    | Standalone

  /** `held`: the caller's transaction still holds the credential row lock. */
  datatype Cause = Cause(binding: Binding, held: bool, purpose: Purpose)

  datatype Result = Success | RevocationPending | Failure

  /** One row of a claim: the snapshot ClaimRevocationIntents returned. */
  datatype Claimed = Claimed(key: Key, id: IntentId, state: IntentState)

  datatype Thread =
    // GetAuthKey
    | Locked(slot: Slot, generation: nat)
    | RowsCounted(slot: Slot, generation: nat)
    | Checked(slot: Slot, generation: nat)
    | Issuing(slot: Slot, generation: nat)
    | Issued(slot: Slot, generation: nat, key: Key)
    | Untracked(slot: Slot, key: Key)
    | Staged(slot: Slot, generation: nat, key: Key, id: IntentId)
    | Written(slot: Slot, key: Key, id: IntentId)
    | Finalizing(key: Key, id: IntentId)
    | Compensating(job: Job)
    | Reusing(slot: Slot, key: Key)
    // GetAuthKey after its transaction was rolled back under it: it holds no lock and commits nothing any more
    | IssuingAlone(slot: Slot)
    | IssuedAlone(slot: Slot, key: Key)
    | UntrackedAlone(key: Key)
    // InvalidateBinding
    | Listing(cause: Cause)
    | Staging(cause: Cause, listed: seq<Key>, jobs: seq<Job>)
    | Marking(cause: Cause, jobs: seq<Job>)
    | Revoking(cause: Cause, jobs: seq<Job>, index: nat, stage: Stage, clean: bool)
    | Deleting(cause: Cause, jobs: seq<Job>)
    | Concluding(cause: Cause, result: Result)
    // ConfirmDeliverable
    | Confirming(delivery: Delivery, binding: Binding, gate: Gate)
    // RetryPending
    | Recovering(token: Token, queue: seq<Claimed>)
    | RecoveringOne(token: Token, queue: seq<Claimed>, job: Job)
    | Releasing(token: Token, queue: seq<Claimed>, id: IntentId)

  datatype World = World(db: Db, threads: map<ThreadId, Thread>)

  const EMPTY_WORLD := World(EMPTY_DB, map[])

  // ---------- Statements on artifact_revocation_intents ----------

  /** PutRevocationIntentImmediately: insert, or on conflict upgrade only when the new state is ready. */
  function UpsertIntent(intents: map<Key, Intent>, key: Key, candidate: Intent): map<Key, Intent> {
    if key !in intents then intents[key := candidate]
    else if candidate.state == Ready then
      intents[key := intents[key].(state := Ready, readyAfter := candidate.readyAfter, lease := Free)]
    else intents
  }

  function MarkReady(intents: map<Key, Intent>, id: IntentId, now: nat): map<Key, Intent> {
    map k | k in intents ::
      if intents[k].id == id then intents[k].(state := Ready, readyAfter := now, lease := Free) else intents[k]
  }

  /** `UPDATE ... WHERE intent_id = id` finds a row. */
  predicate Stored(intents: map<Key, Intent>, id: IntentId) {
    exists k :: k in intents && intents[k].id == id
  }

  predicate Claimable(intent: Intent, now: nat) {
    && (intent.state == Ready || intent.readyAfter <= now)
    && (intent.lease.Free? || intent.lease.expires <= now)
  }

  function LeaseAll(intents: map<Key, Intent>, keys: seq<Key>, lease: Lease): map<Key, Intent> {
    map k | k in intents :: if k in keys then intents[k].(lease := lease) else intents[k]
  }

  /** The row `WHERE intent_id = id AND lease_token = token` selects. */
  predicate Leased(intents: map<Key, Intent>, key: Key, id: IntentId, token: Token) {
    key in intents && intents[key].id == id && intents[key].lease.Held? && intents[key].lease.token == token
  }

  function ReleaseClaim(intents: map<Key, Intent>, id: IntentId, token: Token): map<Key, Intent> {
    map k | k in intents ::
      if Leased(intents, k, id, token) then intents[k].(lease := Free) else intents[k]
  }

  function DropIntent(intents: map<Key, Intent>, id: IntentId): map<Key, Intent> {
    map k | k in intents && intents[k].id != id :: intents[k]
  }

  /** The intent with this id, if FinalizeRevocationIntentImmediately finds one that is not provisional. */
  predicate FinalizeRefused(intents: map<Key, Intent>, id: IntentId) {
    exists k :: k in intents && intents[k].id == id && intents[k].state != Provisional
  }

  /** The committed, visible artifact row that makes ResolveProvisionalRevocationIntent keep the key. */
  predicate KeptByRow(db: Db, key: Key) {
    key in db.info && db.info[key].slot in db.rows && db.rows[db.info[key].slot] == Row(key, false)
  }

  // ---------- Statements on runtime_artifacts ----------

  function RowsPending(rows: map<Slot, Row>, binding: Binding): map<Slot, Row> {
    map s | s in rows :: if s.binding == binding then rows[s].(pending := true) else rows[s]
  }

  predicate HasPendingRow(rows: map<Slot, Row>, binding: Binding) {
    exists s :: s in rows && s.binding == binding && rows[s].pending
  }

  predicate HasIntent(db: Db, binding: Binding) {
    exists k :: k in db.intents && k in db.info && db.info[k].slot.binding == binding
  }

  /** DeleteArtifactImmediately: only the row that carries exactly this value. */
  function DropRow(rows: map<Slot, Row>, slot: Slot, key: Key): map<Slot, Row> {
    if slot in rows && rows[slot].key == key then rows - {slot} else rows
  }

  function DropBinding(rows: map<Slot, Row>, binding: Binding): map<Slot, Row> {
    map s | s in rows && s.binding != binding :: rows[s]
  }

  predicate Expired(db: Db, key: Key) {
    key in db.info && db.info[key].expires <= db.now
  }

  function DropExpired(db: Db, before: nat): map<Slot, Row> {
    map s | s in db.rows
            && !(!db.rows[s].pending && db.rows[s].key in db.info && db.info[db.rows[s].key].expires <= before)
      :: db.rows[s]
  }

  /** The keys of the rows of one binding. */
  predicate IsKeyOf(db: Db, binding: Binding, key: Key) {
    exists s :: s in db.rows && s.binding == binding && db.rows[s].key == key
  }

  function Unlock(db: Db, binding: Binding): Db {
    db.(locks := db.locks - {binding})
  }

}
