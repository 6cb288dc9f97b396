/**
 GetAuthKey on a clean profile, run to its end, and three runs in which an invalidation without the row
 lock goes wrong: two lose a key that has been returned, one lets recovery revoke a key that is returned.
 */
module SagaUnlocked {
  import opened SagaState
  import opened SagaSteps
  import opened SagaInvariant
  import opened SagaTheorems
  import opened SagaTracking
  import opened SagaFairness
  import opened SagaFairRuns
  import opened SagaTraps

  const KEY_TTL: nat := 300

  ghost predicate Steps(w: World, a: Action, w': World) {
    Enabled(w, a) && Apply(w, a) == w'
  }

  ghost predicate Reaches(w: World, actions: seq<Action>, w': World) {
    Runs(w, actions) && Final(w, actions) == w'
  }

  lemma Then(w: World, xs: seq<Action>, w1: World, a: Action, w2: World)
    requires Reaches(w, xs, w1) && Steps(w1, a, w2)
    ensures Reaches(w, xs + [a], w2)
  {
    RunsThen(w, xs, [a]);
  }

  lemma Join2(w: World, xs: seq<Action>, w1: World, ys: seq<Action>, w2: World)
    requires Reaches(w, xs, w1) && Reaches(w1, ys, w2)
    ensures Reaches(w, xs + ys, w2)
  {
    RunsThen(w, xs, ys);
  }

  /** A move of thread t as a step between worlds. */
  lemma ActSteps(threads: map<ThreadId, Thread>, db: Db, t: ThreadId, th: Thread, m: Move, db': Db, next: Thread)
    requires Can(db, t, th, m) && MoveIn(db, t, th, m) == After(db', Some(next))
    ensures Steps(World(db, threads[t := th]), Act(t, m), World(db', threads[t := next]))
  {
    assert threads[t := th][t := next] == threads[t := next];
  }

  /** A GetAuthKey for one profile that meets no trouble. */
  function IssueActions(now: nat, t: ThreadId, s: Slot, key: Key, id: IntentId): seq<Action> {
    [Begin(t, GetAuthKey(s)), Act(t, CountPendingRows), Act(t, CountIntents), Act(t, ReadArtifact),
     Act(t, UpstreamIssues(key, now + KEY_TTL)), Act(t, Stage(id, Done)), Act(t, WriteRow), Act(t, Commit(Done)),
     Act(t, Finalize(Done))]
  }

  function AfterIssue(db: Db, t: ThreadId, s: Slot, key: Key, id: IntentId): Db {
    db.(rows := db.rows[s := Row(key, false)], locks := db.locks - {s.binding},
        info := db.info[key := KeyInfo(s, db.now + KEY_TTL, t)], idOf := db.idOf[id := key],
        staged := db.staged + {key}, closed := db.closed + {key}, committed := db.committed + {key},
        returned := db.returned + {key})
  }

  ghost predicate CleanSlot(w: World, t: ThreadId, s: Slot, key: Key, id: IntentId) {
    && t !in w.threads && s.binding in w.db.creds && w.db.creds[s.binding].active && s.binding !in w.db.locks
    && w.db.intents == map[] && !HasPendingRow(w.db.rows, s.binding) && s !in w.db.rows
    && key !in w.db.info && id !in w.db.idOf
  }

  function IssuedDb(db: Db, t: ThreadId, s: Slot, key: Key): Db {
    db.(locks := db.locks[s.binding := t], info := db.info[key := KeyInfo(s, db.now + KEY_TTL, t)])
  }

  function StagedDb(db: Db, t: ThreadId, s: Slot, key: Key, id: IntentId): Db {
    IssuedDb(db, t, s, key).(
      intents := map[key := Intent(id, Provisional, db.now + PROVISIONAL_RECOVERY_DELAY, Free)],
      idOf := db.idOf[id := key], staged := db.staged + {key})
  }

  lemma TwoSteps(w: World, a: Action, w1: World, b: Action, w2: World)
    requires Steps(w, a, w1) && Steps(w1, b, w2)
    ensures Reaches(w, [a, b], w2)
  {
    Then(w, [], w, a, w1);
    Then(w, [] + [a], w1, b, w2);
    assert [] + [a] + [b] == [a, b];
  }

  lemma ThreeSteps(w: World, a: Action, w1: World, b: Action, w2: World, c: Action, w3: World)
    requires Steps(w, a, w1) && Steps(w1, b, w2) && Steps(w2, c, w3)
    ensures Reaches(w, [a, b, c], w3)
  {
    TwoSteps(w, a, w1, b, w2);
    Then(w, [a, b], w2, c, w3);
    assert [a, b] + [c] == [a, b, c];
  }

  /** The profile is locked and nothing is pending. */
  lemma IssueBegins(w: World, t: ThreadId, s: Slot, key: Key, id: IntentId)
    requires CleanSlot(w, t, s, key, id)
    ensures Reaches(w, IssueActions(w.db.now, t, s, key, id)[..3],
                    World(w.db.(locks := w.db.locks[s.binding := t]),
                          w.threads[t := Checked(s, w.db.creds[s.binding].generation)]))
  {
    var g, db1 := w.db.creds[s.binding].generation, w.db.(locks := w.db.locks[s.binding := t]);
    var actions := IssueActions(w.db.now, t, s, key, id);
    assert !HasIntent(db1, s.binding);
    ActSteps(w.threads, db1, t, Locked(s, g), CountPendingRows, db1, RowsCounted(s, g));
    ActSteps(w.threads, db1, t, RowsCounted(s, g), CountIntents, db1, Checked(s, g));
    ThreeSteps(w, actions[0], World(db1, w.threads[t := Locked(s, g)]),
               actions[1], World(db1, w.threads[t := RowsCounted(s, g)]),
               actions[2], World(db1, w.threads[t := Checked(s, g)]));
    assert [actions[0], actions[1], actions[2]] == actions[..3];
  }

  /** No row is stored, so upstream issues a key. */
  lemma IssueReads(w: World, t: ThreadId, s: Slot, key: Key, id: IntentId)
    requires CleanSlot(w, t, s, key, id)
    ensures Reaches(World(w.db.(locks := w.db.locks[s.binding := t]),
                          w.threads[t := Checked(s, w.db.creds[s.binding].generation)]),
                    IssueActions(w.db.now, t, s, key, id)[3..5],
                    World(IssuedDb(w.db, t, s, key),
                          w.threads[t := Issued(s, w.db.creds[s.binding].generation, key)]))
  {
    var g, db1 := w.db.creds[s.binding].generation, w.db.(locks := w.db.locks[s.binding := t]);
    var actions := IssueActions(w.db.now, t, s, key, id);
    ActSteps(w.threads, db1, t, Checked(s, g), ReadArtifact, db1, Issuing(s, g));
    ActSteps(w.threads, db1, t, Issuing(s, g), UpstreamIssues(key, w.db.now + KEY_TTL), IssuedDb(w.db, t, s, key), Issued(s, g, key));
    TwoSteps(World(db1, w.threads[t := Checked(s, g)]), actions[3], World(db1, w.threads[t := Issuing(s, g)]),
             actions[4], World(IssuedDb(w.db, t, s, key), w.threads[t := Issued(s, g, key)]));
    assert [actions[3], actions[4]] == actions[3..5];
  }

  lemma FinalizeEnds(db: Db, others: map<ThreadId, Thread>, t: ThreadId, key: Key, id: IntentId, readyAfter: nat)
    requires t !in others && db.intents == map[key := Intent(id, Provisional, readyAfter, Free)]
    requires key in db.info && !Expired(db, key)
    ensures Steps(World(db, others[t := Finalizing(key, id)]), Act(t, Finalize(Done)),
                  World(db.(intents := map[], returned := db.returned + {key}), others))
  {
    assert DropIntent(db.intents, id) == map[];
    assert others[t := Finalizing(key, id)] - {t} == others;
  }

  /** The row is committed; only the finalization of the intent is left. */
  function CommittedDb(db: Db, t: ThreadId, s: Slot, key: Key, id: IntentId): Db {
    StagedDb(db, t, s, key, id).(
      locks := db.locks - {s.binding}, closed := db.closed + {key}, committed := db.committed + {key},
      rows := db.rows[s := Row(key, false)])
  }

  lemma CommitsRow(db: Db, t: ThreadId, s: Slot, key: Key, id: IntentId)
    ensures RowCommittedIn(StagedDb(db, t, s, key, id), s, key) == CommittedDb(db, t, s, key, id)
  {
    assert db.locks[s.binding := t] - {s.binding} == db.locks - {s.binding};
  }

  lemma StagesIssued(db: Db, others: map<ThreadId, Thread>, t: ThreadId, s: Slot, g: nat, key: Key, id: IntentId)
    requires db.intents == map[] && id !in db.idOf
    ensures Steps(World(IssuedDb(db, t, s, key), others[t := Issued(s, g, key)]), Act(t, Stage(id, Done)),
                  World(StagedDb(db, t, s, key, id), others[t := Staged(s, g, key, id)]))
  {
    ActSteps(others, IssuedDb(db, t, s, key), t, Issued(s, g, key), Stage(id, Done), StagedDb(db, t, s, key, id), Staged(s, g, key, id));
  }

  lemma IssueWrites(w: World, t: ThreadId, s: Slot, key: Key, id: IntentId)
    requires CleanSlot(w, t, s, key, id)
    ensures Reaches(World(IssuedDb(w.db, t, s, key),
                          w.threads[t := Issued(s, w.db.creds[s.binding].generation, key)]),
                    IssueActions(w.db.now, t, s, key, id)[5..8],
                    World(CommittedDb(w.db, t, s, key, id), w.threads[t := Finalizing(key, id)]))
  {
    var db, g, others := w.db, w.db.creds[s.binding].generation, w.threads;
    var db4, db5, db7 := IssuedDb(db, t, s, key), StagedDb(db, t, s, key, id), CommittedDb(db, t, s, key, id);
    var actions := IssueActions(db.now, t, s, key, id);
    StagesIssued(db, others, t, s, g, key, id);
    ActSteps(others, db5, t, Staged(s, g, key, id), WriteRow, db5, Written(s, key, id));
    CommitsRow(db, t, s, key, id);
    ActSteps(others, db5, t, Written(s, key, id), Commit(Done), db7, Finalizing(key, id));
    ThreeSteps(World(db4, others[t := Issued(s, g, key)]), actions[5], World(db5, others[t := Staged(s, g, key, id)]),
               actions[6], World(db5, others[t := Written(s, key, id)]),
               actions[7], World(db7, others[t := Finalizing(key, id)]));
    assert [actions[5], actions[6], actions[7]] == actions[5..8];
  }

  /** GetAuthKey up to the commit of its row. */
  lemma IssueUntilCommit(w: World, t: ThreadId, s: Slot, key: Key, id: IntentId)
    requires CleanSlot(w, t, s, key, id)
    ensures Reaches(w, IssueActions(w.db.now, t, s, key, id)[..8],
                    World(CommittedDb(w.db, t, s, key, id), w.threads[t := Finalizing(key, id)]))
  {
    IssueBegins(w, t, s, key, id);
    IssueReads(w, t, s, key, id);
    IssueWrites(w, t, s, key, id);
    var actions := IssueActions(w.db.now, t, s, key, id);
    RunsThen(w, actions[..3], actions[3..5]);
    RunsThen(w, actions[..3] + actions[3..5], actions[5..8]);
    assert actions[..3] + actions[3..5] + actions[5..8] == actions[..8];
  }

  /** GetAuthKey leaves the row, no intent, no lock, and has returned the key. */
  lemma IssueRun(w: World, t: ThreadId, s: Slot, key: Key, id: IntentId)
    requires CleanSlot(w, t, s, key, id)
    ensures Reaches(w, IssueActions(w.db.now, t, s, key, id), World(AfterIssue(w.db, t, s, key, id), w.threads))
  {
    var db, actions := w.db, IssueActions(w.db.now, t, s, key, id);
    var db7 := CommittedDb(db, t, s, key, id);
    IssueUntilCommit(w, t, s, key, id);
    FinalizeEnds(db7, w.threads, t, key, id, db.now + PROVISIONAL_RECOVERY_DELAY);
    assert db7.(intents := map[], returned := db.returned + {key}) == AfterIssue(db, t, s, key, id);
    Then(w, actions[..8], World(db7, w.threads[t := Finalizing(key, id)]), actions[8],
         World(AfterIssue(db, t, s, key, id), w.threads));
    assert actions[..8] + [actions[8]] == actions;
  }

  // ---------- A row committed after the list ----------

  const B: Binding := 7
  const PROFILE_ONE := Slot(B, 1)

  const LONE: Cause := Cause(B, false, Standalone)

  /** An invalidation finds no row. */
  const EMPTY_HANDED: seq<Action> := [Happen(Bind(B, 1)), Begin(2, InvalidateUnlocked(B)), Act(2, ListRows([]))]

  /** An invalidation finds no row; request 1 gets key 1; the invalidation deletes its row. */
  const LOSING_RUN: seq<Action> :=
    EMPTY_HANDED + [Act(2, MarkRows(Done))] + IssueActions(0, 1, PROFILE_ONE, 1, 1) + [Act(2, DeleteRows(Done))]

  const BOUND := World(EMPTY_DB.(creds := map[B := Credential(1, true)]), map[])

  function KeyOneOut(): Db {
    AfterIssue(BOUND.db, 1, PROFILE_ONE, 1, 1)
  }

  lemma FirstKeyOut()
    ensures Reaches(EMPTY_WORLD, [Happen(Bind(B, 1))] + IssueActions(0, 1, PROFILE_ONE, 1, 1), World(KeyOneOut(), map[]))
  {
    assert Steps(EMPTY_WORLD, Happen(Bind(B, 1)), BOUND);
    Then(EMPTY_WORLD, [], EMPTY_WORLD, Happen(Bind(B, 1)), BOUND);
    assert [] + [Happen(Bind(B, 1))] == [Happen(Bind(B, 1))];
    IssueRun(BOUND, 1, PROFILE_ONE, 1, 1);
    Join2(EMPTY_WORLD, [Happen(Bind(B, 1))], BOUND, IssueActions(0, 1, PROFILE_ONE, 1, 1), World(KeyOneOut(), map[]));
  }

  lemma ListsNothing()
    ensures Reaches(EMPTY_WORLD, EMPTY_HANDED, World(BOUND.db, map[2 := Marking(LONE, [])]))
  {
    var listing := World(BOUND.db, map[2 := Listing(LONE)]);
    var marking := World(BOUND.db, map[2 := Marking(LONE, [])]);
    assert Steps(EMPTY_WORLD, Happen(Bind(B, 1)), BOUND);
    assert Steps(BOUND, Begin(2, InvalidateUnlocked(B)), listing);
    assert Steps(listing, Act(2, ListRows([])), marking) by {
      ActSteps(map[], BOUND.db, 2, Listing(LONE), ListRows([]), BOUND.db, Marking(LONE, []));
      assert map[][2 := Listing(LONE)] == listing.threads && map[][2 := Marking(LONE, [])] == marking.threads;
    }
    ThreeSteps(EMPTY_WORLD, Happen(Bind(B, 1)), BOUND, Begin(2, InvalidateUnlocked(B)), listing, Act(2, ListRows([])), marking);
  }

  lemma MarksNothing()
    ensures Reaches(EMPTY_WORLD, EMPTY_HANDED + [Act(2, MarkRows(Done))], World(BOUND.db, map[2 := Deleting(LONE, [])]))
  {
    var marking, deleting := World(BOUND.db, map[2 := Marking(LONE, [])]), World(BOUND.db, map[2 := Deleting(LONE, [])]);
    ListsNothing();
    assert Steps(marking, Act(2, MarkRows(Done)), deleting) by {
      assert BOUND.db.(rows := RowsPending(BOUND.db.rows, B)) == BOUND.db;
      ActSteps(map[], BOUND.db, 2, Marking(LONE, []), MarkRows(Done), BOUND.db, Deleting(LONE, []));
      assert map[][2 := Marking(LONE, [])] == marking.threads && map[][2 := Deleting(LONE, [])] == deleting.threads;
    }
    Then(EMPTY_WORLD, EMPTY_HANDED, marking, Act(2, MarkRows(Done)), deleting);
  }

  lemma IssuesBesideTheDelete()
    ensures Reaches(EMPTY_WORLD, EMPTY_HANDED + [Act(2, MarkRows(Done))] + IssueActions(0, 1, PROFILE_ONE, 1, 1),
                    World(KeyOneOut(), map[2 := Deleting(LONE, [])]))
  {
    var deleting := World(BOUND.db, map[2 := Deleting(LONE, [])]);
    MarksNothing();
    IssueRun(deleting, 1, PROFILE_ONE, 1, 1);
    Join2(EMPTY_WORLD, EMPTY_HANDED + [Act(2, MarkRows(Done))], deleting, IssueActions(0, 1, PROFILE_ONE, 1, 1),
          World(KeyOneOut(), map[2 := Deleting(LONE, [])]));
  }

  lemma DeletesKeyOne()
    ensures Steps(World(KeyOneOut(), map[2 := Deleting(LONE, [])]), Act(2, DeleteRows(Done)),
                  World(KeyOneOut().(rows := map[]), map[2 := Concluding(LONE, Success)]))
  {
    assert DropBinding(KeyOneOut().rows, B) == map[];
    ActSteps(map[], KeyOneOut(), 2, Deleting(LONE, []), DeleteRows(Done), KeyOneOut().(rows := map[]), Concluding(LONE, Success));
    assert map[][2 := Deleting(LONE, [])] == map[2 := Deleting(LONE, [])];
    assert map[][2 := Concluding(LONE, Success)] == map[2 := Concluding(LONE, Success)];
  }

  /** The unlocked call in the delivery path can lose a key: staged, live, returned, and nothing leads to it. */
  lemma UnlockedInvalidationLosesAKey()
    ensures Runs(EMPTY_WORLD, LOSING_RUN)
    ensures var db := Final(EMPTY_WORLD, LOSING_RUN).db; 1 in db.returned && !Tracked(db, 1) && !NoOrphan(db)
  {
    var issued := EMPTY_HANDED + [Act(2, MarkRows(Done))] + IssueActions(0, 1, PROFILE_ONE, 1, 1);
    var lost := World(KeyOneOut().(rows := map[]), map[2 := Concluding(LONE, Success)]);
    IssuesBesideTheDelete();
    DeletesKeyOne();
    Then(EMPTY_WORLD, issued, World(KeyOneOut(), map[2 := Deleting(LONE, [])]), Act(2, DeleteRows(Done)), lost);
    assert lost.db.intents == map[] && lost.db.acked == {} && 1 in lost.db.staged && !Tracked(lost.db, 1);
  }

  // ---------- The key under a provisional intent ----------

  /** An invalidation finds no row; request 1 commits one; the invalidation deletes it; request 1 drops the intent. */
  const ISSUE_ONE: seq<Action> := IssueActions(0, 1, PROFILE_ONE, 1, 1)[..8]

  const SECOND_LOSING_RUN: seq<Action> :=
    EMPTY_HANDED + [Act(2, MarkRows(Done))] + ISSUE_ONE + [Act(2, DeleteRows(Done)), Act(1, Finalize(Done))]

  const COMMITTED: Db := CommittedDb(BOUND.db, 1, PROFILE_ONE, 1, 1)

  /** The row is out while the invalidation stands at this phase. */
  lemma CommitsBeside(before: Thread)
    ensures Reaches(World(BOUND.db, map[2 := before]), ISSUE_ONE, World(COMMITTED, map[1 := Finalizing(1, 1), 2 := before]))
  {
    IssueUntilCommit(World(BOUND.db, map[2 := before]), 1, PROFILE_ONE, 1, 1);
    assert map[2 := before][1 := Finalizing(1, 1)] == map[1 := Finalizing(1, 1), 2 := before];
  }

  const UNDER_INTENT: World := World(COMMITTED.(rows := map[]), map[1 := Finalizing(1, 1), 2 := Concluding(LONE, Success)])

  lemma DeletesTheRow()
    ensures Steps(World(COMMITTED, map[1 := Finalizing(1, 1), 2 := Deleting(LONE, [])]), Act(2, DeleteRows(Done)), UNDER_INTENT)
  {
    var others := map[1 := Finalizing(1, 1)];
    assert DropBinding(COMMITTED.rows, B) == map[];
    ActSteps(others, COMMITTED, 2, Deleting(LONE, []), DeleteRows(Done), COMMITTED.(rows := map[]), Concluding(LONE, Success));
    assert others[2 := Deleting(LONE, [])] == map[1 := Finalizing(1, 1), 2 := Deleting(LONE, [])];
    assert others[2 := Concluding(LONE, Success)] == UNDER_INTENT.threads;
  }

  lemma DropsTheIntent()
    ensures Steps(UNDER_INTENT, Act(1, Finalize(Done)),
                  World(UNDER_INTENT.db.(intents := map[], returned := {1}), map[2 := Concluding(LONE, Success)]))
  {
    FinalizeEnds(UNDER_INTENT.db, map[2 := Concluding(LONE, Success)], 1, 1, 1, PROVISIONAL_RECOVERY_DELAY);
    assert map[2 := Concluding(LONE, Success)][1 := Finalizing(1, 1)] == UNDER_INTENT.threads;
  }

  lemma DeletedUnderIntent()
    ensures Reaches(EMPTY_WORLD, SECOND_LOSING_RUN[..13], UNDER_INTENT)
  {
    var marked := EMPTY_HANDED + [Act(2, MarkRows(Done))];
    var committed := World(COMMITTED, map[1 := Finalizing(1, 1), 2 := Deleting(LONE, [])]);
    MarksNothing();
    CommitsBeside(Deleting(LONE, []));
    Join2(EMPTY_WORLD, marked, World(BOUND.db, map[2 := Deleting(LONE, [])]), ISSUE_ONE, committed);
    DeletesTheRow();
    Then(EMPTY_WORLD, marked + ISSUE_ONE, committed, Act(2, DeleteRows(Done)), UNDER_INTENT);
    assert marked + ISSUE_ONE + [Act(2, DeleteRows(Done))] == SECOND_LOSING_RUN[..13];
  }

  /**
   The delete itself leaves the key its provisional intent, so nothing is lost yet; the issuer's next
   statement drops the intent and returns the key.
   */
  lemma DeleteUnderAProvisionalIntentLosesTheKey()
    ensures Runs(EMPTY_WORLD, SECOND_LOSING_RUN[..13]) && NoOrphan(Final(EMPTY_WORLD, SECOND_LOSING_RUN[..13]).db)
    ensures Runs(EMPTY_WORLD, SECOND_LOSING_RUN)
    ensures var db := Final(EMPTY_WORLD, SECOND_LOSING_RUN).db; 1 in db.returned && !Tracked(db, 1) && !NoOrphan(db)
  {
    DeletedUnderIntent();
    DropsTheIntent();
    var lost := World(UNDER_INTENT.db.(intents := map[], returned := {1}), map[2 := Concluding(LONE, Success)]);
    Then(EMPTY_WORLD, SECOND_LOSING_RUN[..13], UNDER_INTENT, Act(1, Finalize(Done)), lost);
    assert SECOND_LOSING_RUN[..13] + [Act(1, Finalize(Done))] == SECOND_LOSING_RUN;
    assert 1 in lost.db.staged && !Tracked(lost.db, 1);
  }

  // ---------- The key that recovery revokes ----------

  /** The invalidation hides the row it did not list while its issuer is about to return the key. */
  const HIDING_RUN: seq<Action> := EMPTY_HANDED + ISSUE_ONE + [Act(2, MarkRows(Done))]

  const HIDDEN := World(COMMITTED.(rows := map[PROFILE_ONE := Row(1, true)]), map[1 := Finalizing(1, 1), 2 := Deleting(LONE, [])])

  lemma HidesTheRow()
    ensures Reaches(EMPTY_WORLD, HIDING_RUN, HIDDEN)
  {
    var others, committed := map[1 := Finalizing(1, 1)], World(COMMITTED, map[1 := Finalizing(1, 1), 2 := Marking(LONE, [])]);
    ListsNothing();
    CommitsBeside(Marking(LONE, []));
    Join2(EMPTY_WORLD, EMPTY_HANDED, World(BOUND.db, map[2 := Marking(LONE, [])]), ISSUE_ONE, committed);
    assert RowsPending(COMMITTED.rows, B) == HIDDEN.db.rows;
    ActSteps(others, COMMITTED, 2, Marking(LONE, []), MarkRows(Done), HIDDEN.db, Deleting(LONE, []));
    assert others[2 := Marking(LONE, [])] == committed.threads && others[2 := Deleting(LONE, [])] == HIDDEN.threads;
    Then(EMPTY_WORLD, EMPTY_HANDED + ISSUE_ONE, committed, Act(2, MarkRows(Done)), HIDDEN);
  }

  lemma HiddenIsTrapped()
    requires Inv(HIDDEN)
    ensures Trapped(HIDDEN, 1, 1, 1) && InTime(HIDDEN, 1)
  {
    assert HIDDEN.db.intents == map[1 := Intent(1, Provisional, PROVISIONAL_RECOVERY_DELAY, Free)];
    assert HIDDEN.db.info == map[1 := KeyInfo(PROFILE_ONE, KEY_TTL, 1)] && HIDDEN.db.locks == map[];
  }

  /**
   The unlocked call can make recovery revoke a key that is handed out: this run can go on, with no row taken
   any more, so that the worker takes the key, whose row is hidden, for abandoned, and the issuer returns it.
   */
  lemma UnlockedInvalidationMakesRecoveryUnfair()
    ensures Reaches(EMPTY_WORLD, HIDING_RUN, HIDDEN)
    ensures exists rest, w :: Leads(HIDDEN, rest, w) && !GoodKeysSpared(w.db)
  {
    EmptyWorldInv();
    HidesTheRow();
    RunKeepsInv(EMPTY_WORLD, HIDING_RUN);
    HiddenIsTrapped();
    var rest, w := TrapCloses(HIDDEN, 1, 1, 1);
  }

}
