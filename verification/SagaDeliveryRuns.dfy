/**
 Runs that mark the limits of what a confirmation can promise: a key revoked in between is delivered dead, two
 runs come to a blind mark of a key on offer, and without the row lock an invalidation, or an issuer that has lost
 its transaction, slips past the counts.
 */
module SagaDeliveryRuns {
  import opened Authorization
  import opened SagaState
  import opened SagaSteps
  import opened SagaInvariant
  import opened SagaTheorems
  import opened SagaTracking
  import opened SagaLosses
  import opened SagaFences
  import opened SagaUnlocked
  import opened SagaBlindMarks
  import opened SagaConfirmations

  const JOBS: seq<Job> := [Job(1, 3, MarkStage)]

  /** Key 1 for consumer 8, whose ticket names generation 1. */
  const PARCEL := Delivery(1, 8, Versions(0, 0, 0, 0, 1))

  const ISSUE_AND_BIND: seq<Action> := [Happen(Bind(B, 1))] + IssueActions(0, 1, PROFILE_ONE, 1, 1)

  const OUT: Db := KeyOneOut()

  lemma OutFacts()
    ensures OUT.rows == map[PROFILE_ONE := Row(1, false)] && OUT.intents == map[] && OUT.locks == map[]
    ensures OUT.info == map[1 := KeyInfo(PROFILE_ONE, KEY_TTL, 1)] && OUT.idOf == map[1 := 1] && OUT.fences == map[]
    ensures OUT.staged == {1} && OUT.returned == {1} && OUT.invalidated == {} && OUT.acked == {} && OUT.barred == {}
    ensures OUT.creds == map[B := Credential(1, true)] && OUT.now == 0
  {
  }

  // ---------- A fence for another consumer kills the key on its way ----------

  lemma IssueKeepsItsLock()
    ensures AllKeepLock(ISSUE_AND_BIND)
  {
    assert AllKeepLock([Happen(Bind(B, 1))]) && AllKeepLock(IssueActions(0, 1, PROFILE_ONE, 1, 1));
    KeepLockThen([Happen(Bind(B, 1))], IssueActions(0, 1, PROFILE_ONE, 1, 1));
  }

  /** All under the row lock: key 1 goes out and, revoked by a fence for consumer 9, is delivered dead to consumer 8. */
  lemma DeadKeyIsDelivered()
    ensures Runs(EMPTY_WORLD, ISSUE_AND_BIND) && AllKeepLock(ISSUE_AND_BIND)
    ensures CanDeliverDead(Final(EMPTY_WORLD, ISSUE_AND_BIND), 3, PARCEL)
  {
    OutFacts();
    FirstKeyOut();
    IssueKeepsItsLock();
    EmptyWorldInv();
    RunKeepsInv(EMPTY_WORLD, ISSUE_AND_BIND);
    LockedRunIsCareful(EMPTY_WORLD, ISSUE_AND_BIND);
    RunKeepsTracked(EMPTY_WORLD, ISSUE_AND_BIND);
    AnyKeyCanBeDeliveredDead(World(OUT, map[]), 3, PARCEL, 9, Fence(1, 1, 1, 1));
  }

  // ---------- Marks that find no intent ----------

  /** The finalization takes effect, but the issuer is told that it failed. */
  const LOST_FINALIZATION: seq<Action> := [Happen(Bind(B, 1))] + ISSUE_ONE + [Act(1, Finalize(Lost))]

  const RESOLUTION: seq<Action> := [Begin(3, RetryPending(1, [1], 30)), Act(3, Resolve(Done)), Act(3, Finish)]

  /** The finalization fails; before the issuer gets to its mark, recovery keeps the row and drops the intent. */
  const LATE_COMPENSATION: seq<Action> :=
    [Happen(Bind(B, 1))] + ISSUE_ONE + [Act(1, Finalize(Failed)), Happen(Elapse(30))] + RESOLUTION

  const FINALIZED: Db := COMMITTED.(intents := map[])
  const LATER: Db := COMMITTED.(now := 30)
  const CLAIMED: Db := LATER.(intents := map[1 := Intent(1, Provisional, 30, Held(1, 60))], tokenOwner := map[1 := 3])
  const RESOLVED: Db := CLAIMED.(intents := map[])

  const FAILING: map<ThreadId, Thread> := map[1 := Compensating(Job(1, 1, MarkStage))]

  lemma CommittedFacts()
    ensures COMMITTED.rows == map[PROFILE_ONE := Row(1, false)] && COMMITTED.locks == map[] && COMMITTED.now == 0
    ensures COMMITTED.intents == map[1 := Intent(1, Provisional, PROVISIONAL_RECOVERY_DELAY, Free)]
    ensures COMMITTED.info == map[1 := KeyInfo(PROFILE_ONE, KEY_TTL, 1)] && COMMITTED.creds == map[B := Credential(1, true)]
    ensures COMMITTED.invalidated == {} && COMMITTED.tokenOwner == map[]
  {
  }

  lemma CommitsKeyOne()
    ensures Reaches(EMPTY_WORLD, [Happen(Bind(B, 1))] + ISSUE_ONE, World(COMMITTED, map[][1 := Finalizing(1, 1)]))
  {
    assert Steps(EMPTY_WORLD, Happen(Bind(B, 1)), BOUND);
    Then(EMPTY_WORLD, [], EMPTY_WORLD, Happen(Bind(B, 1)), BOUND);
    assert [] + [Happen(Bind(B, 1))] == [Happen(Bind(B, 1))];
    IssueUntilCommit(BOUND, 1, PROFILE_ONE, 1, 1);
    Join2(EMPTY_WORLD, [Happen(Bind(B, 1))], BOUND, ISSUE_ONE, World(COMMITTED, map[][1 := Finalizing(1, 1)]));
  }

  lemma FinalizationIsLost()
    ensures Reaches(EMPTY_WORLD, LOST_FINALIZATION, World(FINALIZED, FAILING))
  {
    CommittedFacts();
    CommitsKeyOne();
    assert DropIntent(COMMITTED.intents, 1) == map[];
    ActSteps(map[], COMMITTED, 1, Finalizing(1, 1), Finalize(Lost), FINALIZED, Compensating(Job(1, 1, MarkStage)));
    assert map[][1 := Compensating(Job(1, 1, MarkStage))] == FAILING;
    Then(EMPTY_WORLD, [Happen(Bind(B, 1))] + ISSUE_ONE, World(COMMITTED, map[][1 := Finalizing(1, 1)]), Act(1, Finalize(Lost)),
         World(FINALIZED, FAILING));
  }

  lemma FinalizationFails()
    ensures Reaches(EMPTY_WORLD, [Happen(Bind(B, 1))] + ISSUE_ONE + [Act(1, Finalize(Failed)), Happen(Elapse(30))], World(LATER, FAILING))
  {
    CommitsKeyOne();
    ActSteps(map[], COMMITTED, 1, Finalizing(1, 1), Finalize(Failed), COMMITTED, Compensating(Job(1, 1, MarkStage)));
    assert map[][1 := Compensating(Job(1, 1, MarkStage))] == FAILING;
    TwoSteps(World(COMMITTED, map[][1 := Finalizing(1, 1)]), Act(1, Finalize(Failed)), World(COMMITTED, FAILING),
             Happen(Elapse(30)), World(LATER, FAILING));
    Join2(EMPTY_WORLD, [Happen(Bind(B, 1))] + ISSUE_ONE, World(COMMITTED, map[][1 := Finalizing(1, 1)]),
          [Act(1, Finalize(Failed)), Happen(Elapse(30))], World(LATER, FAILING));
  }

  lemma RecoveryClaims()
    ensures Steps(World(LATER, FAILING), RESOLUTION[0], World(CLAIMED, FAILING[3 := Recovering(1, [Claimed(1, 1, Provisional)])]))
  {
    CommittedFacts();
    assert LeaseAll(LATER.intents, [1], Held(1, 60)) == CLAIMED.intents;
    assert Snapshot(LATER.intents, [1]) == [Claimed(1, 1, Provisional)];
    assert LATER.tokenOwner[1 := 3] == CLAIMED.tokenOwner;
  }

  /** The row is visible, so the key is kept and its intent goes. */
  lemma RecoveryResolves()
    ensures Steps(World(CLAIMED, FAILING[3 := Recovering(1, [Claimed(1, 1, Provisional)])]), RESOLUTION[1],
                  World(RESOLVED, FAILING[3 := Recovering(1, [])]))
  {
    CommittedFacts();
    assert Leased(CLAIMED.intents, 1, 1, 1) && KeptByRow(CLAIMED, 1);
    assert CLAIMED.intents - {1} == map[] && [Claimed(1, 1, Provisional)][1..] == [];
    ActSteps(FAILING, CLAIMED, 3, Recovering(1, [Claimed(1, 1, Provisional)]), Resolve(Done), RESOLVED, Recovering(1, []));
  }

  lemma FinishSteps(db: Db, others: map<ThreadId, Thread>, u: ThreadId, token: Token)
    requires u !in others
    ensures Steps(World(db, others[u := Recovering(token, [])]), Act(u, Finish), World(db, others))
  {
    assert others[u := Recovering(token, [])] - {u} == others;
  }

  lemma RecoveryKeepsTheRow()
    ensures Reaches(World(LATER, FAILING), RESOLUTION, World(RESOLVED, FAILING))
  {
    RecoveryClaims();
    RecoveryResolves();
    FinishSteps(RESOLVED, FAILING, 3, 1);
    ThreeSteps(World(LATER, FAILING), RESOLUTION[0], World(CLAIMED, FAILING[3 := Recovering(1, [Claimed(1, 1, Provisional)])]),
               RESOLUTION[1], World(RESOLVED, FAILING[3 := Recovering(1, [])]), RESOLUTION[2], World(RESOLVED, FAILING));
  }

  /** No invalidation and no lock is involved, and the key, which is on offer, can be taken back from its next holder. */
  ghost predicate BlindMarkAhead(w: World) {
    && AtMark(w, 1, 1) && Offered(w.db, 1) && w.db.intents == map[] && w.db.invalidated == {} && w.db.locks == map[]
    && CanTakeBack(w, 1)
  }

  lemma ComesToABlindMark(actions: seq<Action>, db: Db)
    requires Reaches(EMPTY_WORLD, actions, World(db, FAILING)) && Offered(db, 1)
    requires db.intents == map[] && db.invalidated == {} && db.locks == map[]
    ensures BlindMarkAhead(World(db, FAILING))
  {
    EmptyWorldInv();
    RunKeepsInv(EMPTY_WORLD, actions);
    BlindMarkTakesBack(World(db, FAILING), 1, 1);
    TakenBackByStep(World(db, FAILING), Act(1, Revoke(Done)), 1);
  }

  /**
   Two runs without any invalidation that come to a blind mark: one in which a finalization was lost, one in
   which every statement was answered truly but recovery resolved the intent before the mark.
   */
  lemma CompensationRevokesAReturnedKey()
    ensures Runs(EMPTY_WORLD, LOST_FINALIZATION) && BlindMarkAhead(Final(EMPTY_WORLD, LOST_FINALIZATION))
    ensures Runs(EMPTY_WORLD, LATE_COMPENSATION) && BlindMarkAhead(Final(EMPTY_WORLD, LATE_COMPENSATION))
  {
    CommittedFacts();
    FinalizationIsLost();
    assert Offered(FINALIZED, 1);
    ComesToABlindMark(LOST_FINALIZATION, FINALIZED);
    FinalizationFails();
    RecoveryKeepsTheRow();
    Join2(EMPTY_WORLD, [Happen(Bind(B, 1))] + ISSUE_ONE + [Act(1, Finalize(Failed)), Happen(Elapse(30))], World(LATER, FAILING),
          RESOLUTION, World(RESOLVED, FAILING));
    assert Offered(RESOLVED, 1);
    ComesToABlindMark(LATE_COMPENSATION, RESOLVED);
  }

  // ---------- Without the lock ----------

  /** After the counts an invalidation without the row lock stages the key. */
  const STAGED_MEANWHILE: seq<Action> := [Begin(2, InvalidateUnlocked(B)), Act(2, ListRows([1])), Act(2, Stage(3, Done))]

  const PENDING_DELIVERY: seq<Action> := ISSUE_AND_BIND + Gates(3, PARCEL) + STAGED_MEANWHILE

  const CONFIRMING: map<ThreadId, Thread> := map[3 := Confirming(PARCEL, B, NothingPending)]
  const LOCKED_OUT: Db := OUT.(locks := map[B := 3])
  const STAGED_LATE: Db :=
    LOCKED_OUT.(intents := map[1 := Intent(3, Ready, 0, Free)], idOf := map[1 := 1, 3 := 1], invalidated := {1})

  /** Staging key 1 as ready under identifier 3. */
  lemma StagesKeyOne(db: Db, c: Cause, others: map<ThreadId, Thread>)
    requires db.intents == map[] && db.idOf == map[1 := 1] && db.staged == {1} && db.invalidated == {} && db.now == 0
    ensures Steps(World(db, others[2 := Staging(c, [1], [])]), Act(2, Stage(3, Done)),
                  World(db.(intents := map[1 := Intent(3, Ready, 0, Free)], idOf := map[1 := 1, 3 := 1], invalidated := {1}),
                        others[2 := Marking(c, JOBS)]))
  {
    var db' := db.(intents := map[1 := Intent(3, Ready, 0, Free)], idOf := map[1 := 1, 3 := 1], invalidated := {1});
    assert db.idOf[3 := 1] == db'.idOf && db.staged + {1} == db.staged;
    assert db.invalidated + {1} == {1} && db.intents[1 := Intent(3, Ready, 0, Free)] == db'.intents;
    assert [] + JOBS == JOBS;
    ActSteps(others, db, 2, Staging(c, [1], []), Stage(3, Done), db', Marking(c, JOBS));
  }

  lemma ListsMeanwhile()
    ensures Reaches(World(LOCKED_OUT, CONFIRMING), [STAGED_MEANWHILE[0], STAGED_MEANWHILE[1]],
                    World(LOCKED_OUT, CONFIRMING[2 := Staging(LONE, [1], [])]))
  {
    OutFacts();
    assert IsKeyOf(LOCKED_OUT, B, 1) by { assert LOCKED_OUT.rows[PROFILE_ONE].key == 1; }
    ActSteps(CONFIRMING, LOCKED_OUT, 2, Listing(LONE), ListRows([1]), LOCKED_OUT, Staging(LONE, [1], []));
    TwoSteps(World(LOCKED_OUT, CONFIRMING), STAGED_MEANWHILE[0], World(LOCKED_OUT, CONFIRMING[2 := Listing(LONE)]),
             STAGED_MEANWHILE[1], World(LOCKED_OUT, CONFIRMING[2 := Staging(LONE, [1], [])]));
  }

  lemma StagesMeanwhile()
    ensures Reaches(World(LOCKED_OUT, CONFIRMING), STAGED_MEANWHILE, World(STAGED_LATE, CONFIRMING[2 := Marking(LONE, JOBS)]))
  {
    OutFacts();
    ListsMeanwhile();
    StagesKeyOne(LOCKED_OUT, LONE, CONFIRMING);
    Then(World(LOCKED_OUT, CONFIRMING), [STAGED_MEANWHILE[0], STAGED_MEANWHILE[1]], World(LOCKED_OUT, CONFIRMING[2 := Staging(LONE, [1], [])]),
         STAGED_MEANWHILE[2], World(STAGED_LATE, CONFIRMING[2 := Marking(LONE, JOBS)]));
    assert [STAGED_MEANWHILE[0], STAGED_MEANWHILE[1]] + [STAGED_MEANWHILE[2]] == STAGED_MEANWHILE;
  }

  lemma ReadyToConfirm()
    ensures Reaches(EMPTY_WORLD, ISSUE_AND_BIND + Gates(3, PARCEL), World(LOCKED_OUT, CONFIRMING))
  {
    OutFacts();
    FirstKeyOut();
    assert Confirmable(World(OUT, map[]), 3, PARCEL);
    ConfirmationPasses(World(OUT, map[]), 3, PARCEL);
    assert AtTheCommit(World(OUT, map[]), 3, PARCEL) == World(LOCKED_OUT, CONFIRMING);
    Join2(EMPTY_WORLD, ISSUE_AND_BIND, World(OUT, map[]), Gates(3, PARCEL), World(LOCKED_OUT, CONFIRMING));
  }

  /** Without the row lock an invalidation can slip in after the counts: the key is delivered with its revocation pending. */
  lemma UnlockedInvalidationSlipsPastTheCounts()
    ensures Runs(EMPTY_WORLD, PENDING_DELIVERY)
    ensures var w := Final(EMPTY_WORLD, PENDING_DELIVERY);
      Delivers(w, Act(3, Commit(Done)), PARCEL) && IsReady(w.db, PARCEL.key) && HasIntent(w.db, B)
  {
    ReadyToConfirm();
    StagesMeanwhile();
    Join2(EMPTY_WORLD, ISSUE_AND_BIND + Gates(3, PARCEL), World(LOCKED_OUT, CONFIRMING), STAGED_MEANWHILE,
          World(STAGED_LATE, CONFIRMING[2 := Marking(LONE, JOBS)]));
    DeliversStaged();
  }

  lemma DeliversStaged()
    ensures var w := World(STAGED_LATE, CONFIRMING[2 := Marking(LONE, JOBS)]);
      Delivers(w, Act(3, Commit(Done)), PARCEL) && IsReady(w.db, PARCEL.key) && HasIntent(w.db, B)
  {
    OutFacts();
    assert 1 in STAGED_LATE.intents && 1 in STAGED_LATE.info;
  }

  // ---------- An issuer that has lost its transaction ----------

  const PROFILE_TWO := Slot(B, 2)

  /** Key 2 is issued for the other profile when the transaction is rolled back, which frees the row. */
  const CUT_OFF_ISSUE: seq<Action> := IssueActions(0, 2, PROFILE_TWO, 2, 2)[..5] + [Act(2, CutOff)]

  const ISSUED_TWO: Db := OUT.(info := OUT.info[2 := KeyInfo(PROFILE_TWO, KEY_TTL, 2)])
  const CUT_OFF: map<ThreadId, Thread> := map[2 := IssuedAlone(PROFILE_TWO, 2)]

  lemma IssuesTwo()
    ensures Reaches(World(OUT, map[]), IssueActions(0, 2, PROFILE_TWO, 2, 2)[..5],
                    World(IssuedDb(OUT, 2, PROFILE_TWO, 2), map[][2 := Issued(PROFILE_TWO, 1, 2)]))
  {
    OutFacts();
    var actions, checked := IssueActions(0, 2, PROFILE_TWO, 2, 2), World(OUT.(locks := OUT.locks[B := 2]), map[][2 := Checked(PROFILE_TWO, 1)]);
    IssueBegins(World(OUT, map[]), 2, PROFILE_TWO, 2, 2);
    IssueReads(World(OUT, map[]), 2, PROFILE_TWO, 2, 2);
    Join2(World(OUT, map[]), actions[..3], checked, actions[3..5], World(IssuedDb(OUT, 2, PROFILE_TWO, 2), map[][2 := Issued(PROFILE_TWO, 1, 2)]));
    assert actions[..3] + actions[3..5] == actions[..5];
  }

  lemma IssueIsCutOff()
    ensures Reaches(World(OUT, map[]), CUT_OFF_ISSUE, World(ISSUED_TWO, CUT_OFF))
  {
    OutFacts();
    var issued := World(IssuedDb(OUT, 2, PROFILE_TWO, 2), map[][2 := Issued(PROFILE_TWO, 1, 2)]);
    IssuesTwo();
    assert issued.db.locks - {B} == map[];
    ActSteps(map[], issued.db, 2, Issued(PROFILE_TWO, 1, 2), CutOff, ISSUED_TWO, IssuedAlone(PROFILE_TWO, 2));
    assert map[][2 := IssuedAlone(PROFILE_TWO, 2)] == CUT_OFF;
    Then(World(OUT, map[]), IssueActions(0, 2, PROFILE_TWO, 2, 2)[..5], issued, Act(2, CutOff), World(ISSUED_TWO, CUT_OFF));
  }

  lemma CutOffFacts()
    ensures Confirmable(World(ISSUED_TWO, CUT_OFF), 3, PARCEL)
  {
    OutFacts();
  }

  lemma CutOffKeepsItsLock()
    ensures AllKeepLock(ISSUE_AND_BIND + CUT_OFF_ISSUE)
  {
    IssueKeepsItsLock();
    assert AllKeepLock(IssueActions(0, 2, PROFILE_TWO, 2, 2));
    KeepLockThen(IssueActions(0, 2, PROFILE_TWO, 2, 2)[..5], [Act(2, CutOff)]);
    KeepLockThen(ISSUE_AND_BIND, CUT_OFF_ISSUE);
  }

  /** No invalidation takes part: key 1 is out, and the issuer of key 2, cut off, can slip past the counts of its confirmation. */
  lemma CutOffIssuerDisturbsADelivery()
    ensures Runs(EMPTY_WORLD, ISSUE_AND_BIND + CUT_OFF_ISSUE) && AllKeepLock(ISSUE_AND_BIND + CUT_OFF_ISSUE)
    ensures CanDeliverPending(Final(EMPTY_WORLD, ISSUE_AND_BIND + CUT_OFF_ISSUE), 3, PARCEL)
  {
    FirstKeyOut();
    IssueIsCutOff();
    Join2(EMPTY_WORLD, ISSUE_AND_BIND, World(OUT, map[]), CUT_OFF_ISSUE, World(ISSUED_TWO, CUT_OFF));
    CutOffKeepsItsLock();
    EmptyWorldInv();
    RunKeepsInv(EMPTY_WORLD, ISSUE_AND_BIND + CUT_OFF_ISSUE);
    CutOffFacts();
    OutFacts();
    CutOffIssuerSlipsPastTheCounts(World(ISSUED_TWO, CUT_OFF), 3, PARCEL, 2);
  }

}
