/**
 Control operations over the operations table and the credential rows. Execute is Admit, then one
 transaction around LockPending, the callback and Complete, then FailPending when that transaction
 failed. A row written in the transaction stays locked until the commit, the rollback or the crash.
 */
module OperationSteps {
  import opened Operations

  type Binding = string
  type ThreadId = nat

  datatype Credential = Credential(account: string, generation: Generation)

  /** One life of a credential row, from its creation: the successful Replace and Refresh operations in commit order. */
  datatype Life = Life(birth: Generation, links: seq<OperationRef>)

  /** Where a link stands: which life of its binding, and which link of that life. */
  datatype Place = Place(life: nat, index: nat)

  /** Committed tables, row locks, and then what has happened so far. */
  datatype Db = Db(
    now: nat,
    nextToken: Token,
    ops: Table,
    creds: map<Binding, Credential>,
    opLocks: map<OperationId, ThreadId>,
    credLocks: map<Binding, ThreadId>,
    admissions: map<OperationId, nat>,  // how often Admit reported the id as admitted
    exits: map<OperationId, nat>,       // how often a call moved the id out of pending
    effects: set<OperationId>,          // the operations whose mutation was committed
    lives: map<Binding, seq<Life>>,
    places: map<OperationId, Place>)

  const EMPTY_DB := Db(0, 0, map[], map[], map[], map[], map[], map[], {}, map[], map[])

  /** The credential writes of a callback, buffered until the commit. */
  datatype Write =
    | Create(account: string)
    | Advance(account: string)
    | Remove
    | Touch
    | NoRow

  datatype Thread =
    | Admitted(ref: OperationRef, token: Token)
    | Locked(ref: OperationRef, token: Token)
    | Mutated(ref: OperationRef, token: Token, write: Write)
    | Completed(ref: OperationRef, token: Token, write: Write, report: Report)
    | Failing(ref: OperationRef, token: Token)

  datatype World = World(db: Db, threads: map<ThreadId, Thread>)

  const EMPTY_WORLD := World(EMPTY_DB, map[])

  /** Lost: the statement took effect but its caller was told it failed. */
  datatype Outcome = Done | Refused | Lost

  datatype Event =
    | Elapse(seconds: nat)
    | SaveCredential(binding: Binding, credential: Credential)
    | DropCredential(binding: Binding)
    | ResolveOperation(ref: OperationRef)

  datatype Move =
    | LockPending
    | Mutate(write: Write)
    | Complete(report: Report)
    | Abort
    | Commit(outcome: Outcome)
    | FailPending(reason: string, outcome: Outcome)
    | Crash

  datatype Action =
    | Happen(event: Event)
    | Execute(t: ThreadId, ref: OperationRef, outcome: Outcome)
    | Act(t: ThreadId, move: Move)

  datatype Option<T> = None | Some(value: T)
  datatype After = After(db: Db, thread: Option<Thread>)

  // ---------- Credential rows ----------

  function LivesOf(db: Db, b: Binding): seq<Life> {
    if b in db.lives then db.lives[b] else []
  }

  /** A row that was not there comes to life with the generation it is written with. */
  function Born(db: Db, b: Binding, credential: Credential): Db
    requires b !in db.creds
  {
    db.(creds := db.creds[b := credential],
        lives := db.lives[b := LivesOf(db, b) + [Life(credential.generation, [])]])
  }

  /** CredentialRepo.Save: an upsert that leaves the generation of an existing row alone. */
  function SaveIn(db: Db, b: Binding, credential: Credential): Db {
    if b in db.creds then db.(creds := db.creds[b := db.creds[b].(account := credential.account)])
    else Born(db, b, credential)
  }

  /** The compare-and-swap of CredentialRepo.AdvanceGeneration finds its row. */
  predicate Swappable(db: Db, ref: OperationRef, account: string) {
    && ref.binding in db.creds
    && db.creds[ref.binding].account == account
    && db.creds[ref.binding].generation == ref.pre
  }

  predicate Advancing(kind: Kind) {
    kind == ReplaceCredential || kind == RefreshCredential
  }

  /** The callbacks of PlatformControlService: what each kind may write, and on which row. */
  predicate CanMutate(db: Db, ref: OperationRef, write: Write) {
    match write
    case Create(_) =>
      ref.kind == BindCredential && ref.pre == 0 && ref.target == 1
      && ref.binding !in db.creds && ref.binding !in db.credLocks
    case Advance(account) => Advancing(ref.kind) && ref.binding !in db.credLocks && Swappable(db, ref, account)
    case Remove =>
      ref.kind == DeleteCredential && ref.binding !in db.credLocks
      && ref.binding in db.creds && db.creds[ref.binding].generation == ref.pre
    case Touch =>
      (ref.kind == ApplyAuthorizationFence || ref.kind == SetPrimaryProfile) && ref.binding !in db.credLocks
      && ref.binding in db.creds && db.creds[ref.binding].generation == ref.pre
    case NoRow => ref.kind == DeleteCredential && ref.binding !in db.creds
  }

  function Extend(lives: seq<Life>, ref: OperationRef): seq<Life>
    requires |lives| > 0
  {
    var last := lives[|lives| - 1];
    lives[..|lives| - 1] + [last.(links := last.links + [ref])]
  }

  function AdvanceIn(db: Db, ref: OperationRef): Db
    requires ref.binding in db.creds && |LivesOf(db, ref.binding)| > 0
  {
    var lives := LivesOf(db, ref.binding);
    db.(creds := db.creds[ref.binding := db.creds[ref.binding].(generation := ref.target)],
        lives := db.lives[ref.binding := Extend(lives, ref)],
        places := db.places[ref.id := Place(|lives| - 1, |lives[|lives| - 1].links|)])
  }

  /** What the invariant keeps true for the thread that buffered the write. */
  predicate CanApply(db: Db, ref: OperationRef, write: Write) {
    match write
    case Create(_) => ref.binding !in db.creds
    case Advance(account) => Swappable(db, ref, account) && |LivesOf(db, ref.binding)| > 0
    case Remove => ref.binding in db.creds && db.creds[ref.binding].generation == ref.pre
    case Touch => ref.binding in db.creds && db.creds[ref.binding].generation == ref.pre
    case NoRow => true
  }

  function ApplyWrite(db: Db, ref: OperationRef, write: Write): (r: Db)
    requires CanApply(db, ref, write)
    ensures r.(creds := db.creds, lives := db.lives, places := db.places) == db
  {
    match write
    case Create(account) => Born(db, ref.binding, Credential(account, ref.target))
    case Advance(_) => AdvanceIn(db, ref)
    case Remove => db.(creds := db.creds - {ref.binding})
    case Touch => db
    case NoRow => db
  }

  // ---------- Events ----------

  predicate CanHappen(db: Db, e: Event) {
    match e
    case Elapse(_) => true
    case SaveCredential(b, _) => b !in db.credLocks
    case DropCredential(b) => b in db.creds && b !in db.credLocks
    case ResolveOperation(ref) => ValidRef(ref) && ref.id !in db.opLocks
  }

  function Count(counts: map<OperationId, nat>, id: OperationId): nat {
    if id in counts then counts[id] else 0
  }

  function LeftPending(ops: Table, ops': Table, id: OperationId): nat {
    if id in ops && ops[id].report.state == Pending && (id !in ops' || ops'[id].report.state != Pending) then 1 else 0
  }

  function ResolveIn(db: Db, ref: OperationRef): Db {
    var ops := Resolution(db.ops, ref, db.now, db.nextToken);
    db.(ops := ops, nextToken := db.nextToken + 1,
        exits := db.exits[ref.id := Count(db.exits, ref.id) + LeftPending(db.ops, ops, ref.id)])
  }

  function HappenTo(db: Db, e: Event): Db
    requires CanHappen(db, e)
  {
    match e
    case Elapse(seconds) => db.(now := db.now + seconds)
    case SaveCredential(b, credential) => SaveIn(db, b, credential)
    case DropCredential(b) => db.(creds := db.creds - {b})
    case ResolveOperation(ref) => ResolveIn(db, ref)
  }

  // ---------- Execute ----------

  /** Admit of a validated reference: a thread goes on only when this call inserted the row. */
  function ExecuteIn(db: Db, ref: OperationRef, outcome: Outcome): After {
    if outcome == Refused || !ValidRef(ref) || ref.id in db.ops then After(db, None)
    else
      var admitted := db.(ops := Admission(db.ops, ref, db.now, db.nextToken), nextToken := db.nextToken + 1);
      if outcome == Lost then After(admitted, None)
      else After(admitted.(admissions := db.admissions[ref.id := Count(db.admissions, ref.id) + 1]),
                 Some(Admitted(ref, db.nextToken)))
  }

  function Without<K>(locks: map<K, ThreadId>, t: ThreadId): map<K, ThreadId> {
    map k | k in locks && locks[k] != t :: locks[k]
  }

  /** The transaction of the thread is over: its row locks are gone. */
  function Unlocked(db: Db, t: ThreadId): Db {
    db.(opLocks := Without(db.opLocks, t), credLocks := Without(db.credLocks, t))
  }

  predicate Can(db: Db, th: Thread, m: Move) {
    match m
    case LockPending => th.Admitted? && th.ref.id !in db.opLocks
    case Mutate(write) => th.Locked? && CanMutate(db, th.ref, write)
    case Complete(report) => th.Mutated? && report.state == Succeeded
    case Abort => th.Admitted? || th.Locked? || th.Mutated? || th.Completed?
    case Commit(_) => th.Completed? && CanApply(db, th.ref, th.write)
    case FailPending(_, _) => th.Failing? && th.ref.id !in db.opLocks
    case Crash => true
  }

  function LockPendingIn(db: Db, t: ThreadId, th: Thread): After
    requires th.Admitted?
  {
    if Executable(db.ops, th.ref.id, th.token) then
      After(db.(opLocks := db.opLocks[th.ref.id := t]), Some(Locked(th.ref, th.token)))
    else After(db, Some(Failing(th.ref, th.token)))
  }

  function MutateIn(db: Db, t: ThreadId, th: Thread, write: Write): After
    requires th.Locked?
  {
    After(if write.NoRow? then db else db.(credLocks := db.credLocks[th.ref.binding := t]),
          Some(Mutated(th.ref, th.token, write)))
  }

  /** Both the credential write and the completion become visible, and every row lock is released. */
  function CommittedIn(db: Db, t: ThreadId, th: Thread): Db
    requires th.Completed? && CanApply(db, th.ref, th.write)
  {
    var written := ApplyWrite(db, th.ref, th.write);
    Unlocked(written.(ops := Completion(db.ops, th.ref.id, th.token, th.report),
                      exits := db.exits[th.ref.id := Count(db.exits, th.ref.id) + 1],
                      effects := db.effects + {th.ref.id}), t)
  }

  function CommitIn(db: Db, t: ThreadId, th: Thread, outcome: Outcome): After
    requires th.Completed? && CanApply(db, th.ref, th.write)
  {
    var failing := Some(Failing(th.ref, th.token));
    if outcome == Refused then After(Unlocked(db, t), failing)
    else After(CommittedIn(db, t, th), if outcome == Done then None else failing)
  }

  function FailPendingIn(db: Db, th: Thread, reason: string, outcome: Outcome): After
    requires th.Failing?
  {
    if outcome == Refused then After(db, None)
    else
      var ops := Failure(db.ops, th.ref.id, th.token, reason, db.nextToken);
      After(db.(ops := ops, nextToken := db.nextToken + 1,
                exits := db.exits[th.ref.id := Count(db.exits, th.ref.id) + LeftPending(db.ops, ops, th.ref.id)]), None)
  }

  function MoveIn(db: Db, t: ThreadId, th: Thread, m: Move): After
    requires Can(db, th, m)
  {
    match m
    case LockPending => LockPendingIn(db, t, th)
    case Mutate(write) => MutateIn(db, t, th, write)
    case Complete(report) => After(db, Some(Completed(th.ref, th.token, th.write, report)))
    case Abort => After(Unlocked(db, t), Some(Failing(th.ref, th.token)))
    case Commit(outcome) => CommitIn(db, t, th, outcome)
    case FailPending(reason, outcome) => FailPendingIn(db, th, reason, outcome)
    case Crash => After(Unlocked(db, t), None)
  }

  // ---------- Runs ----------

  predicate Enabled(w: World, a: Action) {
    match a
    case Happen(e) => CanHappen(w.db, e)
    case Execute(t, _, _) => t !in w.threads
    case Act(t, m) => t in w.threads && Can(w.db, w.threads[t], m)
  }

  function Put(threads: map<ThreadId, Thread>, t: ThreadId, th: Option<Thread>): map<ThreadId, Thread> {
    match th
    case Some(next) => threads[t := next]
    case None => threads - {t}
  }

  function Step(w: World, a: Action): After
    requires Enabled(w, a) && !a.Happen?
  {
    match a
    case Execute(_, ref, outcome) => ExecuteIn(w.db, ref, outcome)
    case Act(t, m) => MoveIn(w.db, t, w.threads[t], m)
  }

  function Apply(w: World, a: Action): World
    requires Enabled(w, a)
  {
    if a.Happen? then World(HappenTo(w.db, a.event), w.threads)
    else World(Step(w, a).db, Put(w.threads, a.t, Step(w, a).thread))
  }

  predicate Runs(w: World, actions: seq<Action>)
    decreases |actions|
  {
    |actions| == 0 || (Enabled(w, actions[0]) && Runs(Apply(w, actions[0]), actions[1..]))
  }

  function Final(w: World, actions: seq<Action>): World
    requires Runs(w, actions)
    decreases |actions|
  {
    if |actions| == 0 then w else Final(Apply(w, actions[0]), actions[1..])
  }

}
