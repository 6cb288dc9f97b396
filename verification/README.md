# Verified models of the account platform's protocols

This project models the parts of the platform whose correctness depends on interleavings, crashes or
byte-level encodings, and proves what they promise. `dafny verify dfyconfig.toml` checks all of it.

**Authkey issue and revocation (Platform Mihomo).** `SagaState` holds the tables, the row locks and one
function for each SQL statement; `SagaSteps` the step relation, in which one action is one statement, one
upstream call, one commit, one rollback or one crash. Writes outside a transaction take effect at once,
writes inside it at the commit, and a statement may take effect although its caller is told it failed.
A transaction may be rolled back under a request that goes on. `SagaInvariant` states what holds in every
reachable state of every run and what each thread may rely on; the `...Proof` modules and `SagaTheorems` show
that every step keeps it. The results on top of it:

- `SagaTracking`, `SagaLosses`: no staged key is lost, and exactly which deletes can lose one.
- `SagaFairness`, `SagaFairnessProof`, `SagaMoves`, `SagaFairRuns`, `SagaTraps`: the recovery worker spares keys that
  are handed out, and exactly which statements can break that.
- `SagaCompensation`, `SagaBlindMarks`: when a failed request revokes a key that another request was given.
- `SagaFences`, `SagaGenerations`: a committed authorization fence is final for keys given out before and after it, and
  after a refresh or replacement no key goes to a ticket of an earlier generation.
- `SagaDelivery`, `SagaIntrusions`: what a confirmation has counted still stands when it commits, and exactly which
  statements can break that.
- `SagaAcknowledged`: exactly when a key is live at its delivery.
- `SagaConfirmations`: a confirmation that nobody disturbs passes, and what can happen to a key that it does not notice.
- `SagaUnlocked`, `SagaDeliveryRuns`: runs from the empty database that show the limits.
- `ArtifactLifecycle`, `AuthkeyUsecase`, `RuntimeService`, `ArtifactRepo`: the imperative methods; before each of their
  statements any other requests take any number of steps. The service counts what goes wrong (failing statements and
  calls, lost transactions, locks that do not come), and the contracts say what a call has done when that count has not
  moved; `AuthkeyAnswers` says on the columns what each answer means.

While every invalidation keeps the credential row lock, no key is lost, recovery is fair, and at a delivery no row is
pending and no intent of a key that ever had a row, without further condition.

**Control operations.** `Operations` is the operations table with its repository, `OperationSteps` the steps
of Execute, Resolve and the other credential writers, `OperationProof` the invariant, `OperationTheorems`
the results: at most one execution, no effect behind an unknown outcome, one chain of generations for each
life of a credential row. `OperationUsecase` is Execute among all other requests, with the fate of its own
statements as a parameter, `CredentialRepo` the credential rows.

**Fences and tickets.** `Authorization` is the fence lattice; `Tickets` the two revocation tables, the
lookups and the verification of a ticket after its signature was checked.

**Secrets.** `Envelope` is the keyring, the base64 payload and the envelope; `Reencryption` the sweep with
its keyset pages and compare-and-swap; `ArtifactAad` the bytes bound to an artifact. Sealing is an ideal pair
of functions: opening what was sealed under the same key, nonce and additional data gives the text back. That sealed
text does not open under other additional data is a premise of one lemma only.

**Fingerprints.** `ByteCodes` and `Fingerprints` are the byte strings of the three operation fingerprints.

**Account Center.** `EmailHeap`, `EmailQueue` and `EmailWakeup` are the priority queue as a heap with
back-pointers, its critical sections and retry loop, and the interleaving of producers and worker;
`SeedPolicies` is the policy catalog and the reconciliation of the policy store.

**Readiness.** `HealthMonitor` is the monitor as a step machine, `HealthMonitorMethods` its methods.

## Where the code does less than it says

- The invalidation at services/platform-mihomo/internal/service/mihomo_runtime_service.go:159 runs without the
  credential row lock, and so does an invalidation that goes on after its transaction was rolled back by a
  cancelled request. Three things can then go wrong:
  - It loses a key. `UnlockedInvalidationLosesAKey` is a run in which it deletes the row of a key committed after
    it had listed the rows, `DeleteUnderAProvisionalIntentLosesTheKey` one in which the issuer drops the last
    trace of the key after the delete; `KeysAreSafeExactlyInCarefulRuns` says exactly which deletes can do it.
  - It makes recovery revoke a key that is being handed out, by hiding its row:
    `UnlockedInvalidationMakesRecoveryUnfair` is such a run, `GoodKeysAreSparedExactlyInFairRuns` says exactly
    which statements can do it.
  - It slips past the counts of a confirmation, which then delivers a key while its binding has a row or an intent
    pending: `UnlockedInvalidationSlipsPastTheCounts` is such a run.
- An issuer whose transaction is rolled back while upstream issues its key, as by a deadline, has lost the row lock
  but stores its intent all the same (services/platform-mihomo/internal/usecase/artifact_lifecycle.go:111-118). It can
  do so after a confirmation of another key has counted the intents: `CutOffIssuerSlipsPastTheCounts`.
  `CountsStandExactly` says which statements spoil the counts, `NothingIsPendingExactlyWithoutIntrusion` exactly when a
  run can come to a delivery with something pending, `LockedStepIntrudesExactly` that this issuer is the only cause
  left once invalidations hold the lock.
- Also under the row lock a key can be revoked between GetAuthKey and ConfirmDeliverable without the
  confirmation noticing, as by a fence for another consumer: `AnyKeyCanBeDeliveredDead`. The confirmation does not read
  the row, and the row would tell: `DeliveredKeyIsLiveExactlyInItsRow` says that, the marks of the next item aside, an
  unexpired key is live at its delivery if and only if its visible row still carries it.
- The mark at the start of a compensation ignores that it updated no row
  (services/platform-mihomo/internal/data/artifact_revocation_repo.go:41-48), so a failed request goes on to revoke a
  key whose intent is gone and whose visible row another request may have been given. The intent is gone after a
  finalization that took effect but was reported as failed, and just as well after recovery resolved it in favour of
  the row before the request came to its mark: `CompensationRevokesAReturnedKey` has a run of each kind.
  `TakenBackOnlyUnmarked` says that nothing else leads there, `BlindMarkTakesBack` that every such mark of a key that
  is given out or on offer does, `KeysAreLetBeExactlyInConsiderateRuns` exactly which statements of a run endanger a key.
- The retry delay of the email queue wraps around in 64 bits: the 32nd retry of the default delay does not wait.
- Four length bytes do not hold every length: behind `v2` and the kid, the additional data of artifacts tells
  bindings, accounts, types and scopes apart exactly while all four are below 2^32 bytes.
- The re-encryption sweep starts after the empty text, so a row with an empty binding reference is never listed.
- Generations wrap around after 2^64 successful operations of one credential row.

## Assumptions

- Statements on one row are atomic, `FOR UPDATE` and uncommitted writes lock a row to the end of the transaction,
  and a blocked statement sees the committed row when it goes on.
- A rollback under a request at a point from which only statements of that transaction remain has no effect but to
  free the row lock, and is a crash in the model.
- Upstream issues every key once, and ciphertexts are fresh, so an artifact value identifies its key.
- Random identifiers and tokens are fresh. Clocks never go back.
- Binding references are compared character by character; any total order with the empty text first would do.

## Model

| member | source | states |
|---|---|---|
| `SagaTheorems.StepKeepsInv` | services/platform-mihomo/internal/usecase/artifact_lifecycle.go:43-222 | Any single step (statement, upstream call, commit, crash, rollback at any point under a request that goes on) of any issuer, invalidator, confirmation or worker, the unlocked call included, keeps the whole saga invariant and stays within what the other threads rely on |
| `SagaAloneProof.AloneSound` | services/platform-mihomo/internal/usecase/artifact_lifecycle.go:89-119 | An issuer whose transaction is rolled back during or after the upstream call loses its row lock, and still what it does next, issuing, staging outside the transaction, revoking an unstaged key, keeps the invariant: nobody else stages or commits its key |
| `SagaTracking.StepKeepsTracked` | services/platform-mihomo/internal/usecase/artifact_lifecycle.go:43-172 | Every step but a careless delete keeps each staged key dead, or reachable through an intent or an artifact row, and each key that was or may be returned safe without its provisional intent |
| `SagaTracking.NoOrphanedKey` | services/platform-mihomo/internal/usecase/artifact_lifecycle.go:43-172 | In every run from the empty database whose final deletes are careful, crashes and rollbacks anywhere, also of an issuer that goes on without its transaction, each staged key is acknowledged as revoked, expired, or still reachable through an intent or an artifact row |
| `SagaLosses.NoOrphanUnderRowLock` | services/platform-mihomo/internal/usecase/authkey_usecase.go:57-92 | The same for every run in which each invalidation holds the credential row lock to its end, with no further condition |
| `SagaLosses.LockedRunIsCareful` | services/platform-mihomo/internal/service/platform_control_service.go:374-399 | Holding the row lock is enough: such a run never deletes the row of a live key it has not had revoked |
| `SagaLosses.CarefulExactly` | services/platform-mihomo/internal/usecase/artifact_lifecycle.go:66-82 | A step can be followed by a lost key if and only if it is a delete that meets a row whose key is live, unacknowledged, not under a ready intent, and either without an intent or about to be finalized by its issuer |
| `SagaLosses.KeysAreSafeExactlyInCarefulRuns` | services/platform-mihomo/internal/usecase/artifact_lifecycle.go:43-83 | For every run: no prefix of it can be continued carefully to a lost key if and only if all its deletes are careful |
| `SagaUnlocked.UnlockedInvalidationLosesAKey` | services/platform-mihomo/internal/service/mihomo_runtime_service.go:158-161 | A concrete run of the unlocked call: it finds no row, another request gets a key, and its delete leaves that key staged, live, returned and untracked |
| `SagaUnlocked.DeleteUnderAProvisionalIntentLosesTheKey` | services/platform-mihomo/internal/service/mihomo_runtime_service.go:158-161 | A second run: after the delete a provisional intent still leads to the key, and the issuer's next statement drops it and returns the key |
| `SagaUnlocked.IssueRun` | services/platform-mihomo/internal/usecase/authkey_usecase.go:48-93 | A GetAuthKey that meets no trouble ends with the committed row, no intent and the key handed out |
| `SagaTheorems.ReadyIsFinal` | services/platform-mihomo/internal/data/artifact_revocation_repo.go:41-152 | In every run a ready intent stays ready in every later state, and is gone only after upstream acknowledged the revocation |
| `SagaTheorems.WentReadyForGood` | services/platform-mihomo/internal/data/artifact_revocation_repo.go:15-48 | In every run: once ready, a key is for ever either under a ready intent or acknowledged, also if an intent for it is stored again |
| `SagaFairRuns.StepKeepsFair` | services/platform-mihomo/internal/usecase/artifact_lifecycle.go:190-222 | Every step that takes no row of an exposed key keeps the guarantee: what recovery or compensation took is out of reach of every request, and no worker can come in time for a key whose row is hidden while its issuer is about to return it |
| `SagaFairRuns.RecoverySparesGoodKeys` | services/platform-mihomo/internal/usecase/artifact_lifecycle.go:190-222 | In every run whose invalidations take no row of an exposed key, a key GetAuthKey returned while it was live is revoked by the recovery worker only if some InvalidateBinding staged it |
| `SagaFairRuns.RecoverySparesGoodKeysUnderRowLock` | services/platform-mihomo/internal/usecase/artifact_lifecycle.go:190-222 | The same for every run in which each invalidation holds the credential row lock to its end, with no further condition |
| `SagaTraps.FairExactly` | services/platform-mihomo/internal/usecase/artifact_lifecycle.go:66-82 | A step can be followed by a returned key that recovery revoked if and only if it hides or deletes the row of a live key with a provisional intent that its issuer is about to finalize and a worker can still claim or resolve before it expires |
| `SagaTraps.GoodKeysAreSparedExactlyInFairRuns` | services/platform-mihomo/internal/usecase/artifact_lifecycle.go:43-222 | For every run: no prefix of it can be continued fairly to a good key revoked by recovery if and only if it takes no row of an exposed key |
| `SagaTraps.TrapCloses` | services/platform-mihomo/internal/data/artifact_revocation_repo.go:50-148 | From any state in which such a key has lost its visible row, a continuation is built in which a worker revokes it and its issuer returns it |
| `SagaTraps.StepKeepsLocksOwned` | services/platform-mihomo/internal/usecase/authkey_usecase.go:57-78 | Every row lock belongs to a live thread that believes it holds it, so a crash of the holder always frees it |
| `SagaUnlocked.UnlockedInvalidationMakesRecoveryUnfair` | services/platform-mihomo/internal/service/mihomo_runtime_service.go:158-161 | A concrete run of the unlocked call, which hides the row of a key about to be returned, has a continuation that takes no further rows to a key both returned and revoked by recovery, though no invalidation staged it |
| `SagaFairRuns.BarredIsNotReturned` | services/platform-mihomo/internal/usecase/authkey_usecase.go:80-90 | What compensation or recovery took is never returned in any fair continuation, unless an invalidation stages it too |
| `SagaFairRuns.ResolveRevokesOnlyAbandonedKeys` | services/platform-mihomo/internal/data/artifact_revocation_repo.go:84-125 | Resolve turns a provisional intent ready only for a key without a visible row; then no open transaction ever commits that row, and in a fair run the key is never returned unless an invalidation staged it |
| `SagaRecoveryProof.CondemnSound` | services/platform-mihomo/internal/data/artifact_revocation_repo.go:95-122 | Because the credential row is locked first, turning the intent ready closes the issuing transaction of the key |
| `SagaFences.FenceRevokesEarlierKeys` | services/platform-mihomo/internal/service/platform_control_service.go:200-233 | When a fence commits in a state in which no key is lost, every key of the binding that was returned before, or that a request has committed or read and is about to return, is revoked, expired or under a ready intent, and the stored fence is at least the applied one |
| `SagaFences.TicketStillHoldsAtDelivery` | services/platform-mihomo/internal/usecase/authkey_usecase.go:213-239 | Several statements after the ticket was read, at the commit of ConfirmDeliverable, it still clears the fence and names the generation in force then, and the credential is active, because the row lock was held all the time |
| `SagaFences.NoDeliveryBelowFence` | services/platform-mihomo/internal/usecase/authkey_usecase.go:213-239 | However a run goes on from any reachable state, the unlocked call included, every commit that delivers a key, also one delivered before, belongs to a ticket that clears the fence in force at the start |
| `SagaFences.FenceIsFinal` | services/platform-mihomo/internal/service/mihomo_runtime_service.go:138-167 | After a fence commit, in every run whatever, every key returned or about to be returned before it stays dead or under revocation, and no commit delivers a key of the binding to a ticket below the fence |
| `SagaFences.ControlRevokesEarlierKeys` | services/platform-mihomo/internal/service/platform_control_service.go:374-399 | The same for every control operation: when a fence, refresh, replacement or deletion commits, every key of the binding given out or about to be is dead or under a ready intent |
| `SagaGenerations.EarlierGenerationIsNotDelivered` | services/platform-mihomo/internal/usecase/authkey_usecase.go:213-239 | After a refresh or a replacement commits, however the run goes on while the credential row stands, the unlocked call included, no key of the binding is delivered to a ticket of the earlier generation |
| `SagaGenerations.ControlWrites` | services/platform-mihomo/internal/service/platform_control_service.go:111-187 | What the commit leaves: the next generation and an active credential after a refresh or replacement, no credential after a deletion, no artifact row after the last two |
| `SagaDelivery.DeliveryIsCurrent` | services/platform-mihomo/internal/usecase/authkey_usecase.go:213-239 | In every run in which invalidations hold the row lock: at a delivery no row of the binding is pending and no intent of a key that ever had a row, the ticket clears fence and generation in force, and the key is dead already or the key of its visible row, staged by no invalidation and taken by no recovery |
| `SagaDelivery.StepKeepsLocked` | services/platform-mihomo/internal/usecase/authkey_usecase.go:123-129 | While invalidations hold the row lock, what the two counts of HasRevocationPending found stays so to the commit, but for keys without a row that their issuers stage after a rollback |
| `SagaDelivery.CountsStandExactly` | services/platform-mihomo/internal/data/artifact_repo.go:123-139 | What every confirmation has counted still stands after a step if and only if the step is none of three late statements without the row lock: an invalidation stages a key after the intents were counted, an issuer does so after its transaction was rolled back, or an invalidation hides rows after the rows were counted |
| `SagaIntrusions.IntrudesExactly` | services/platform-mihomo/internal/usecase/authkey_usecase.go:213-239 | A step can be followed by a delivery with a row or intent of the binding pending if and only if it is such a late statement before the commit, or the second count passes while a row has been hidden since the first |
| `SagaIntrusions.NothingIsPendingExactlyWithoutIntrusion` | services/platform-mihomo/internal/usecase/authkey_usecase.go:213-239 | For every run: no prefix of it can be continued to a delivery with something pending if and only if none of its statements intrudes |
| `SagaIntrusions.LockedStepIntrudesExactly` | services/platform-mihomo/internal/usecase/artifact_lifecycle.go:111-118 | In a state reached while invalidations hold the row lock a step intrudes if and only if it is the late staging of an issuer whose transaction was rolled back |
| `SagaIntrusions.LockedRunStaysOut` | services/platform-mihomo/internal/service/platform_control_service.go:374-399 | A run in which every invalidation keeps the row lock, and no issuer stages a key after its transaction was rolled back, never intrudes |
| `SagaIntrusions.NothingPendingUnderLock` | services/platform-mihomo/internal/usecase/authkey_usecase.go:213-239 | In every such run no row and no intent of the binding is pending at a delivery |
| `SagaAcknowledged.StepKeepsAccounted` | services/platform-mihomo/internal/usecase/artifact_lifecycle.go:134-172 | Every step of every run keeps: whoever may ask upstream to revoke a key has a ready intent or a mark that found none behind it, a key that may still be committed is not revoked, and a revoked key is in a row only under one of the two |
| `SagaAcknowledged.RevokedKeyInItsRow` | services/platform-mihomo/internal/usecase/artifact_lifecycle.go:134-172 | In every run whatever: a revoked key that is still in its row is under a ready intent, or the mark of its compensation found none |
| `SagaAcknowledged.DeliveredKeyIsLiveExactlyInItsRow` | services/platform-mihomo/internal/usecase/authkey_usecase.go:213-239 | In every run in which invalidations hold the row lock: an unexpired key whose compensation did not miss its intent is live at its delivery if and only if its visible row still carries it |
| `SagaCompensation.TakenBackOnlyUnmarked` | services/platform-mihomo/internal/usecase/artifact_lifecycle.go:134-172 | In every run whatever: a live key that was returned, and that no invalidation staged, is sent upstream by its failed issuer only if the issuer's mark found no intent |
| `SagaCompensation.ConsiderateExactly` | services/platform-mihomo/internal/data/artifact_revocation_repo.go:41-48 | A step can be followed by a key taken back if and only if it is the mark of a live key that another request has, or the read of a key whose issuer has passed its mark |
| `SagaCompensation.KeysAreLetBeExactlyInConsiderateRuns` | services/platform-mihomo/internal/usecase/authkey_usecase.go:80-90 | For every run: no prefix of it can be continued considerately to a returned key that its issuer revokes if and only if none of its statements is one of those two |
| `SagaBlindMarks.BlindMarkTakesBack` | services/platform-mihomo/internal/data/artifact_revocation_repo.go:41-48 | In every reachable state: a mark on a live key that was returned, or that the next request would read from its row, finds no intent, and a continuation is built in which a holder of the key has it revoked by its issuer |
| `SagaBlindMarks.SeeingMarkTakesNothingBack` | services/platform-mihomo/internal/data/artifact_revocation_repo.go:41-48 | The other half: after a mark that found its intent no continuation whatever takes the key back, unless an invalidation stages it |
| `SagaConfirmations.ConfirmationPasses` | services/platform-mihomo/internal/usecase/authkey_usecase.go:213-239 | A confirmation that nobody disturbs passes all its reads |
| `SagaConfirmations.AnyKeyCanBeDeliveredDead` | services/platform-mihomo/internal/service/mihomo_runtime_service.go:138-167 | From every state that has lost no key and in which a confirmation would deliver a live key: a fence for any other consumer can revoke all keys of the binding first, all under the row lock, and the confirmation then delivers the key dead |
| `SagaConfirmations.CutOffIssuerSlipsPastTheCounts` | services/platform-mihomo/internal/usecase/artifact_lifecycle.go:111-118 | From every state in which a confirmation would pass and an issuer for the same binding goes on after a rollback: the issuer can store its intent after the counts, and the key is delivered with that intent pending |
| `SagaDeliveryRuns.DeadKeyIsDelivered` | services/platform-mihomo/internal/service/mihomo_runtime_service.go:138-167 | A run from the empty database, all under the row lock, comes to such a state: the key just issued can be delivered dead |
| `SagaDeliveryRuns.CompensationRevokesAReturnedKey` | services/platform-mihomo/internal/usecase/authkey_usecase.go:80-90 | Two concrete runs without any invalidation or held lock that come to a mark without an intent while the key is on offer: a finalization that took effect but was reported as failed, and a failed one whose intent recovery resolved before the mark; each can go on to a key taken back |
| `SagaDeliveryRuns.UnlockedInvalidationSlipsPastTheCounts` | services/platform-mihomo/internal/service/mihomo_runtime_service.go:158-161 | A concrete run of the unlocked call: a key is delivered while its ready intent is stored |
| `SagaDeliveryRuns.CutOffIssuerDisturbsADelivery` | services/platform-mihomo/internal/usecase/authkey_usecase.go:195-205 | A run without any invalidation, one key out and the issuer of another cut off from its transaction, can go on to a delivery with an intent of the binding pending |
| `SagaInvariant.Stable` | services/platform-mihomo/internal/usecase/artifact_lifecycle.go:43-222 | What a thread knows between two of its statements survives any step of another thread |
| `ArtifactLifecycle.Service.InvalidateBinding` | services/platform-mihomo/internal/usecase/artifact_lifecycle.go:43-83 | Under any interleaving it succeeds exactly when none of its statements goes wrong; the listed keys are those of the rows at one moment of the call; success means all of them are acknowledged, revocation pending that all are acknowledged or under a ready intent; under the row lock besides that the binding has no row, or only staged or expired ones |
| `ArtifactLifecycle.Service.StageAll` | services/platform-mihomo/internal/usecase/artifact_lifecycle.go:54-64 | The staging loop: unless a statement goes wrong every listed key has been staged as ready and the jobs follow the list; it stops at the first error |
| `ArtifactLifecycle.Service.RevokeAll` | services/platform-mihomo/internal/usecase/artifact_lifecycle.go:73-81 | The revocation loop tries every intent; it is clean exactly when nothing goes wrong, and then every key is acknowledged |
| `ArtifactLifecycle.Service.RevokeIssuedArtifact` | services/platform-mihomo/internal/usecase/artifact_lifecycle.go:134-172 | Mark ready, revoke upstream, drop row, drop intent; it succeeds exactly when nothing goes wrong, and then the key is acknowledged and neither its row nor the intent is left; the first error ends it |
| `ArtifactLifecycle.Service.RevokeStatement` | services/platform-mihomo/internal/usecase/artifact_lifecycle.go:143-171 | Each of the four statements may fail, or fail after its effect; beyond the first one success implies the acknowledgement |
| `ArtifactLifecycle.Service.StageArtifact` | services/platform-mihomo/internal/usecase/artifact_lifecycle.go:89-119 | After success, which only a failing statement prevents, the key has a ready intent, due at once and leased to nobody, under the returned identifier, which may be an older one |
| `ArtifactLifecycle.Service.MarkRows` | services/platform-mihomo/internal/usecase/artifact_lifecycle.go:66-71 | After success, which only a failing statement prevents, every row of the binding is pending; otherwise the result is pending if something was staged and failure if not |
| `ArtifactLifecycle.Service.DeleteRows` | services/platform-mihomo/internal/usecase/artifact_lifecycle.go:82 | After success, which only a failing statement prevents, the binding has no row |
| `ArtifactLifecycle.Service.ClaimIntents` | services/platform-mihomo/internal/data/artifact_revocation_repo.go:50-82 | At one moment of the call a claim leases, for 30 seconds from the call and under a token nobody used before, up to 100 distinct intents that were due by the call, the first in order of ready_after and intent_id, and nothing else changes; when it gets fewer than 100, every ready or overdue provisional intent without a running lease is among them |
| `ArtifactLifecycle.Service.ResolveProvisional` | services/platform-mihomo/internal/usecase/artifact_lifecycle.go:206-215 | Unless something goes wrong, a waiting row lock included, the key is to be revoked if and only if at one moment of the call the claim still stands and no visible row carries the key |
| `ArtifactLifecycle.Service.RetryOne` | services/platform-mihomo/internal/usecase/artifact_lifecycle.go:205-220 | One turn of the recovery loop: unless something goes wrong the key ends acknowledged, or its intent was provisional and found to be taken over or in favour of its row; after an error the claim is released |
| `ArtifactLifecycle.Service.ReleaseClaimed` | services/platform-mihomo/internal/data/artifact_revocation_repo.go:127-131 | Unless the release itself fails no intent of this identifier is left leased under this token |
| `ArtifactLifecycle.Service.RetryPending` | services/platform-mihomo/internal/usecase/artifact_lifecycle.go:190-222 | In any interleaving a pass reports success exactly when nothing goes wrong; then every claimed intent is dealt with, and if fewer than 100 were claimed, every intent due at the claim is: a ready one that nobody had leased ends with its key acknowledged |
| `ArtifactLifecycle.ConcludedUnderLock` | services/platform-mihomo/internal/usecase/artifact_lifecycle.go:66-82 | The result of a locked invalidation as the invariant sees it: no row after success, only staged or expired rows after a pending result |
| `AuthkeyUsecase.AuthkeyUsecase.GetAuthKey` | services/platform-mihomo/internal/usecase/authkey_usecase.go:48-93 | In any interleaving every answer is explained on the columns: a key is the one of the visible row if that lives five seconds more and else a new one, committed and handed out, and nothing went wrong; without a key there was no credential, an inactive or rejected one whose binding was invalidated, a pending revocation, a new key that could not be stored or finalized and whose compensation ran, or something went wrong |
| `AuthkeyUsecase.AuthkeyUsecase.CheckAndRead` | services/platform-mihomo/internal/usecase/authkey_usecase.go:95-144 | Status, both counts and the row: goes on with the key of the visible row exactly if that has at least five seconds to live, and stops only for what it met: an inactive credential, whose binding it invalidates, a pending row or an intent of the binding, or something that went wrong |
| `AuthkeyUsecase.AuthkeyUsecase.LockCredential` | services/platform-mihomo/internal/usecase/authkey_usecase.go:49-64 | The row lock and the generation in force then; no lock only if there is no credential or somebody else holds it |
| `AuthkeyUsecase.AuthkeyUsecase.StageIssued` | services/platform-mihomo/internal/usecase/authkey_usecase.go:195-198 | Success, which only a failing statement prevents, leaves a provisional intent due in 30 seconds under the returned identifier; after a failure the key is acknowledged as revoked if upstream answered |
| `AuthkeyUsecase.AuthkeyUsecase.StoreRow` | services/platform-mihomo/internal/usecase/authkey_usecase.go:178-207 | The row is buffered unless the lifetime is out of range, the statement fails, a row of the binding is pending, or the credential is not active at the generation of the lock |
| `AuthkeyUsecase.AuthkeyUsecase.StageAlone` | services/platform-mihomo/internal/usecase/artifact_lifecycle.go:111-118 | The same after a rollback of the transaction under the request: the intent is stored all the same, and compensation is next |
| `AuthkeyUsecase.AuthkeyUsecase.GoOnAlone` | services/platform-mihomo/internal/usecase/authkey_usecase.go:80-85 | A request that has lost its transaction ends with its key revoked, or something has gone wrong besides |
| `AuthkeyUsecase.AuthkeyUsecase.FinalizeKey` | services/platform-mihomo/internal/usecase/authkey_usecase.go:86-90 | The key goes out only with no intent of that identifier left; it does not go out only if the statement fails or the intent is ready by then, and compensation starts |
| `AuthkeyUsecase.AuthkeyUsecase.Compensate` | services/platform-mihomo/internal/usecase/authkey_usecase.go:80-85 | Compensation succeeds exactly when nothing goes wrong, and then the key is acknowledged and neither its row nor the intent is left; it stops at its first error |
| `AuthkeyUsecase.AuthkeyUsecase.PassGate` | services/platform-mihomo/internal/usecase/authkey_usecase.go:213-239 | One read of ConfirmDeliverable: it goes on exactly when the read allows it at that moment; otherwise the transaction is rolled back, and the tables did not allow the delivery |
| `AuthkeyUsecase.AuthkeyUsecase.ConfirmDeliverable` | services/platform-mihomo/internal/usecase/authkey_usecase.go:213-239 | Lock, ticket, status, two counts and commit among all other requests: a yes means the delivery is recorded and the ticket clears the fence and names the generation in force at that moment; a no means that at one moment generation, fence, status, a row or an intent forbade it, or that the lock or the commit failed |
| `RuntimeService.RuntimeService.Respond` | services/platform-mihomo/internal/service/mihomo_runtime_service.go:134-167 | A key goes out only after GetAuthKey and ConfirmDeliverable both said yes. When GetAuthKey gave a key and the confirmation refused it, the rows of the binding are listed after the refusal, and the invalidation succeeds exactly when nothing goes wrong in it: then every listed key is acknowledged, the refused one too if it was still in its row; on a pending result they are under revocation |
| `RuntimeService.RuntimeService.InvalidateUnlocked` | services/platform-mihomo/internal/service/mihomo_runtime_service.go:158-161 | The invalidation without the row lock: its result says what has become of the keys listed at one moment, and only something that goes wrong keeps it from success |
| `ArtifactRepo.ArtifactRepo.PutRevocationIntent` | services/platform-mihomo/internal/data/artifact_revocation_repo.go:15-39 | A new intent is stored as it is; an existing one keeps its identifier and only goes from provisional to ready, losing its lease; no other one changes |
| `ArtifactRepo.ArtifactRepo.MarkRevocationIntentReady` | services/platform-mihomo/internal/data/artifact_revocation_repo.go:41-48 | The row with the identifier becomes ready now and unleased; all others stay |
| `ArtifactRepo.ArtifactRepo.ResolveProvisional` | services/platform-mihomo/internal/data/artifact_revocation_repo.go:84-125 | A lost lease changes nothing; a visible row with the same value deletes the intent; otherwise the intent is ready and shall be revoked |
| `ArtifactRepo.ArtifactRepo.ReleaseRevocationIntentClaim` | services/platform-mihomo/internal/data/artifact_revocation_repo.go:127-131 | Only a claim with this very token is released |
| `ArtifactRepo.ArtifactRepo.FinalizeRevocationIntent` | services/platform-mihomo/internal/data/artifact_revocation_repo.go:133-148 | Refused exactly when the intent is stored and no longer provisional, and then nothing changes |
| `ArtifactRepo.ArtifactRepo.HasRevocationPending` | services/platform-mihomo/internal/data/artifact_repo.go:123-139 | True exactly when the binding has a pending row or any intent |
| `ArtifactRepo.ArtifactRepo.PutIfCredentialCurrent` | services/platform-mihomo/internal/data/artifact_repo.go:32-57 | The row is stored exactly when nothing is pending and the credential is active at the expected generation |
| `ArtifactRepo.ArtifactRepo.DeleteArtifact` | services/platform-mihomo/internal/data/artifact_repo.go:257-282 | Only a row that carries exactly this value goes |
| `ArtifactRepo.ArtifactRepo.MarkRevocationPending` | services/platform-mihomo/internal/data/artifact_repo.go:284-295 | All rows of the binding become pending, no other row changes |
| `ArtifactRepo.ArtifactRepo.DeleteByBinding` | services/platform-mihomo/internal/data/artifact_repo.go:318-329 | Exactly the rows of the binding go |
| `ArtifactRepo.ReachableIdsAreUnique` | services/platform-mihomo/internal/data/artifact_revocation_repo.go:133-152 | In every reachable state an identifier names at most one intent, so deletes and updates by identifier hit one key |
| `Operations.OperationRepo.Admit` | services/platform-mihomo/internal/data/operation_repo.go:40-71 | Admitted exactly when the id was unknown, and then stored as pending under a new token with a lease of 30 seconds; otherwise nothing changes and the caller gets the stored record or a conflict |
| `Operations.OperationRepo.LockPending` | services/platform-mihomo/internal/data/operation_repo.go:73-82 | Succeeds exactly for the pending row that carries this execution token |
| `Operations.OperationRepo.Complete` | services/platform-mihomo/internal/data/operation_repo.go:84-105 | Refuses the empty, pending and tombstone states; otherwise moves exactly the pending row of this token, once |
| `Operations.OperationRepo.FailPending` | services/platform-mihomo/internal/data/operation_repo.go:107-118 | Moves the pending row to failed with its reason and replaces its token, so that no token can execute it any more; otherwise nothing changes |
| `Operations.OperationRepo.Resolve` | services/platform-mihomo/internal/data/operation_repo.go:140-183 | Afterwards the id is known; it is pending only while its lease runs, an id nobody admitted has become a tombstone, and a pending row is closed as unknown only after its lease |
| `OperationProof.StepKeepsInv` | services/platform-mihomo/internal/usecase/operation_usecase.go:23-65 | Any step of any executor, Resolve or other credential writer keeps the invariant of the operation protocol |
| `OperationTheorems.SettledIsFinal` | services/platform-mihomo/internal/data/operation_repo.go:40-183 | In every run an id stays bound to one reference and a row that left pending, tombstones included, never changes again |
| `OperationTheorems.AtMostOnce` | services/platform-mihomo/internal/data/operation_repo.go:40-118 | Over any calls: one admission, one exit from pending, one executing request for an id |
| `OperationTheorems.TombstoneBlocksAdmission` | services/platform-mihomo/internal/data/operation_repo.go:140-162 | After Resolve left a tombstone no request is ever admitted under the id and none is executing it |
| `OperationTheorems.EffectIffSucceeded` | services/platform-mihomo/internal/usecase/operation_usecase.go:42-60 | A mutation is committed if and only if its operation is stored as succeeded, and a generation moved if and only if it was a Replace or Refresh among those |
| `OperationTheorems.UnknownOutcomeMeansNoEffect` | services/platform-mihomo/internal/data/operation_repo.go:170-181 | An operation found as failed_input_required or not_received has moved nothing and never will, in any interleaving with an executor |
| `OperationTheorems.GenerationMovesOnlyBySuccess` | services/platform-mihomo/internal/service/platform_control_service.go:374-399 | The generation of a living credential row changes only in the commit that turns its pending Replace or Refresh into a succeeded one, from its pre to its target generation |
| `OperationTheorems.GenerationChain` | services/platform-mihomo/internal/data/credential_repo.go:69-80 | In each life of a credential row the succeeded Replace and Refresh operations form a chain from the birth generation, and the stored generation is its end |
| `OperationTheorems.LinksAreTheSuccesses` | services/platform-mihomo/internal/service/platform_control_service.go:111-149 | The links of the chains are exactly the succeeded Replace and Refresh operations, each in one place |
| `OperationTheorems.ChainsOnlyGrow` | services/platform-mihomo/internal/data/credential_repo.go:33-42 | No later step rewrites a chain: a save leaves the generation alone and a rebind starts a new life |
| `OperationTheorems.NoTwoSuccessesFromOneGeneration` | services/platform-mihomo/internal/usecase/operation_usecase.go:104-116 | Two successes of one life start from the same generation if and only if their distance is a multiple of 2^64 |
| `OperationTheorems.LeaseProtectsExecution` | services/platform-mihomo/internal/data/operation_repo.go:170-177 | Resolve can close an admitted operation only after its lease |
| `OperationTheorems.CompletedCanCommit` | services/platform-mihomo/internal/usecase/operation_usecase.go:55-59 | What a transaction read and locked still holds at its commit, so its buffered writes can always be applied |
| `OperationUsecase.LockIsFree` | services/platform-mihomo/internal/data/operation_repo.go:73-82 | The row lock of an operation belongs only to the request that executes it |
| `OperationUsecase.OperationUsecase.Execute` | services/platform-mihomo/internal/usecase/operation_usecase.go:23-65 | In any interleaving and for any fate of its statements: admitted exactly when the admission succeeds on an unknown id; then executed with its credential write and report stored, unless callback or commit failed or the row was settled or the credential not as required at one moment; after a failed transaction the row is stored as failed unless somebody had settled it or that statement is refused, so only then can it stay pending; a replay returns the stored record of the same reference |
| `OperationUsecase.OperationUsecase.RunTransaction` | services/platform-mihomo/internal/usecase/operation_usecase.go:42-60 | The transaction ends with the effect committed and visible or with the request about to record its failure, the latter only for a failing callback or commit or a hindrance it met |
| `OperationUsecase.OperationUsecase.FailPending` | services/platform-mihomo/internal/data/operation_repo.go:107-118 | Unless the statement is refused, a row that is still pending ends failed with its reason; a settled row stays as it is |
| `CredentialRepo.CredentialRepo.Save` | services/platform-mihomo/internal/data/credential_repo.go:33-42 | Every listed column of the row is the given one, and the generation of an existing row stays; no other row changes |
| `CredentialRepo.CredentialRepo.SetProfileSnapshotState` | services/platform-mihomo/internal/data/credential_repo.go:44-59 | Writes the three snapshot columns of an existing row and nothing else |
| `CredentialRepo.CredentialRepo.AdvanceGeneration` | services/platform-mihomo/internal/data/credential_repo.go:69-80 | Compare-and-swap on binding, account and generation; a miss changes nothing |
| `CredentialRepo.CredentialRepo.AdvanceProfileRevision` | services/platform-mihomo/internal/data/credential_repo.go:82-96 | Compare-and-swap on generation and both revisions of a complete snapshot; both become the next revision |
| `CredentialRepo.OnlySwapsMoveTheGeneration` | services/platform-mihomo/internal/data/credential_repo.go:33-96 | After any sequence of repository calls the generation of a row is the target of the last successful swap |
| `Tickets.Database.UpsertFence` | services/platform-mihomo/internal/data/authorization_fence_repo.go:21-40 | The four-column upsert stores the join, and touches no other scope |
| `Tickets.Database.UpsertInvalidation` | services/platform-mihomo/internal/data/grant_invalidation_repo.go:21-38 | The upsert stores the maximum, and touches no other scope |
| `Tickets.Database.LookupAuthorizationState` | services/platform-mihomo/internal/data/ticket_authorization_state.go:20-44 | All zero without a credential row even when a fence is stored; otherwise the generation and the stored fence |
| `Tickets.Database.ApplyAuthorizationFence` | services/platform-mihomo/internal/service/platform_control_service.go:197-236 | Both records are written or neither; they are exactly for a named consumer, a positive grant version and an existing row at the expected generation, unless a statement fails, and then cover the applied fence |
| `Tickets.TicketVerifier.VerifyContext` | services/platform-mihomo/internal/data/ticket_verifier.go:94-228 | Accepts exactly the well-formed tickets that clear the configured lookups, refuses as revoked exactly the well-formed rest, and returns the allowed actions before the scopes; an accepted ticket has the one audience, a lifetime of at most 300 seconds and the subject of its actor, and as a consumer ticket the generation its credential row has now |
| `Tickets.TicketVerifier.CheckConsumer` | services/platform-mihomo/internal/data/ticket_verifier.go:143-180 | The consumer branch passes exactly well-formed delegation tickets that clear the grant minimum and the fence, each of its components, and name exactly the stored generation |
| `Tickets.TicketVerifier.CheckControl` | services/platform-mihomo/internal/data/ticket_verifier.go:181-200 | The control branch passes exactly user, admin and system tickets with the matching subject |
| `Tickets.StoredFenceIsJoinOfApplied` | services/platform-mihomo/internal/data/authorization_fence_repo.go:21-40 | After any history the stored fence is the join of the fences applied to its scope |
| `Tickets.FenceIsOrderFree` | services/platform-mihomo/internal/data/authorization_fence_repo.go:30-38 | Two histories that applied the same fences, in any order and any number of times, store the same fence |
| `Tickets.RefusalIsPermanent` | services/platform-mihomo/internal/data/ticket_verifier.go:153-180 | A consumer ticket below the stored fence is refused after any further events, credential deletes and rebinds included |
| `Tickets.ConsumerPassesExactly` | services/platform-mihomo/internal/data/ticket_verifier.go:153-180 | With both lookups an admissible consumer ticket is accepted if and only if its credential row exists at exactly its generation and it is at or above the stored minimum and every component of the stored fence |
| `Tickets.OnlyTheStoredGenerationPasses` | services/platform-mihomo/internal/data/ticket_verifier.go:168-180 | From one write of the credential row to the next, whatever else happens, a consumer ticket passes exactly if it names the generation written and clears both records as they stand; after a delete none passes |
| `Tickets.FenceOnlyRises` | services/platform-mihomo/internal/data/management_repo.go:83-105 | Nothing lowers or removes a fence, not even the deletion of the credential graph |
| `Tickets.TwoRecordsAgree` | services/platform-mihomo/internal/service/platform_control_service.go:211-224 | Written only through ApplyAuthorizationFence, the invalidation minimum equals the grant component of the fence for every scope |
| `Tickets.GrantLookupIsRedundant` | services/platform-mihomo/internal/data/ticket_verifier.go:159-167 | While the two records agree the separate grant lookup never changes the verdict |
| `EmailHeap.PriorityQueue.Swap` | services/account-center/internal/email/queue.go:39-43 | Exchanges two positions and keeps every index right |
| `EmailHeap.PriorityQueue.Up` | services/account-center/internal/email/queue.go:45-50 | Sifting up restores the heap order and keeps the messages |
| `EmailHeap.PriorityQueue.Push` | services/account-center/internal/email/queue.go:45-50 | The heap has exactly one more message, is ordered, and every message knows its position |
| `EmailHeap.PriorityQueue.Down` | services/account-center/internal/email/queue.go:52-60 | Sifting down restores the heap order and keeps the messages |
| `EmailHeap.PriorityQueue.Pop` | services/account-center/internal/email/queue.go:52-60 | Takes a message with index -1 and leaves exactly the rest in order; whatever stays has a lower priority, or the same and no earlier timestamp |
| `EmailHeap.RootIsFirst` | services/account-center/internal/email/queue.go:30-37 | In an ordered heap nothing is before the root under Less |
| `EmailQueue.MemoryQueue.Enqueue` | services/account-center/internal/email/queue.go:94-125 | Accepted exactly below the configured size, 1000 by default; then one message more and a token in the channel, otherwise nothing changed |
| `EmailQueue.MemoryQueue.TakeNext` | services/account-center/internal/email/queue.go:207-216 | Empty queue, or the oldest message of the highest priority removed and the others kept |
| `EmailQueue.MemoryQueue.Drain` | services/account-center/internal/email/queue.go:198-204 | Without producers every message is sent once with its retries, descending by priority and ascending by timestamp within one, and the trace of sends and waits is exactly that of these messages |
| `EmailQueue.MemoryQueue.SendWithRetry` | services/account-center/internal/email/queue.go:228-295 | Adds to the trace of sends and waits: one send, and while sends fail one wait and one more send for each retry, at most as many as configured, three by default; it ends with the first success, the last retry, or a wait that the context cuts short |
| `EmailQueue.AttemptAt` | services/account-center/internal/email/queue.go:239-262 | The trace of one message position by position: sends at the even places, all failed but the last of a delivered one, and between them the waits with the delay of their number |
| `EmailQueue.MemoryQueue.ProcessNext` | services/account-center/internal/email/queue.go:206-226 | Takes the first message out, sends it with its retries, and says whether more wait; an empty queue sends nothing |
| `EmailQueue.DelayIsPromised` | services/account-center/internal/email/queue.go:240-247 | The wait is the doubled delay capped at five minutes if and only if the product fits 64 bits or its wrapped value still reaches the cap |
| `EmailQueue.ModestRetriesWaitAsPromised` | services/account-center/internal/email/queue.go:240-247 | While the last uncapped delay fits 64 bits all waits are the promised ones |
| `EmailQueue.ThirtySecondRetryDoesNotWait` | services/account-center/internal/email/queue.go:243-247 | With the default delay the 32nd retry gets a negative wait instead of five minutes |
| `EmailWakeup.NoLostWakeup` | services/account-center/internal/email/queue.go:94-226 | In every interleaving of producers and worker a non-empty queue has a token, a worker that will look again, or a producer about to notify |
| `EmailWakeup.EveryAcceptedMessageIsSomewhere` | services/account-center/internal/email/queue.go:98-113 | Queued, in flight and finished messages together are the accepted ones, and the queue never exceeds its capacity |
| `EmailWakeup.NobodyIsStuck` | services/account-center/internal/email/queue.go:163-226 | Whoever holds the lock, and a worker on its way, always has an enabled step |
| `EmailWakeup.WaitingWorkerIsWoken` | services/account-center/internal/email/queue.go:166-176 | A worker at the select can receive whenever messages wait and the lock is free |
| `EmailWakeup.EveryAcceptedMessageCanBeFinished` | services/account-center/internal/email/queue.go:94-226 | From every reachable state whose worker has not stopped, a continuation without new calls, and without a producer that still waits for the lock, empties the queue and finishes every accepted message |
| `Reencryption.CredentialReencryption.ReencryptAll` | services/platform-mihomo/internal/usecase/credential_reencryption.go:26-69 | Terminates; undisturbed it succeeds exactly when no repository call fails and every row with a reference can be read; on success every row nobody else changed is under the active key, except one with an empty reference, which the sweep never changes; alone, the count is the number of rows that needed it and every plaintext is unchanged; with writers, each row still holds what its last writer stored |
| `Reencryption.CredentialReencryption.ProcessRow` | services/platform-mihomo/internal/usecase/credential_reencryption.go:40-64 | The body of the inner loop moves the cursor over exactly the next row and keeps count and cleanliness |
| `Reencryption.CredentialReencryption.ListBatch` | services/platform-mihomo/internal/data/credential_reencryption_repo.go:10-25 | The batch lists without a gap the rows after the cursor, and a short batch means nothing is left |
| `Reencryption.CredentialReencryption.CompareAndSwap` | services/platform-mihomo/internal/data/credential_reencryption_repo.go:27-32 | Replaces exactly when the stored blob is the one that was read |
| `Envelope.Base64RoundTrip` | services/platform-mihomo/internal/crypto/blob.go:40-62 | Decoding the unpadded encoding of any bytes gives the bytes back, in both alphabets |
| `Envelope.Load` | services/platform-mihomo/internal/crypto/keyring.go:93-137 | Accepts exactly files with a valid active kid among distinct valid kids of 32-byte keys, and loads exactly their keys |
| `Envelope.LoadKeys` | services/platform-mihomo/internal/crypto/keyring.go:115-128 | The loop refuses the first bad or repeated entry and otherwise maps every kid to its decoded key |
| `Envelope.CutAtFirstDot` | services/platform-mihomo/internal/crypto/blob.go:44-48 | A kid without a dot is cut off where it ends |
| `Envelope.EnvelopeRoundTrip` | services/platform-mihomo/internal/crypto/blob.go:15-85 | Under any keyring that keeps the sealing kid and key, decryption returns the plaintext, and re-encryption is asked for exactly when another kid is active |
| `Envelope.AcceptedKeyringRoundTrip` | services/platform-mihomo/internal/crypto/keyring.go:54-71 | A fresh envelope opens under its own keyring and needs no re-encryption |
| `Envelope.DroppedKidIsRefused` | services/platform-mihomo/internal/crypto/keyring.go:81-91 | Once its kid is gone an envelope is refused |
| `Envelope.RelabelledIsRefused` | services/platform-mihomo/internal/crypto/blob.go:33-74 | If sealed text opens only under its own additional data, an envelope relabelled to another kid is refused, even when both kids have the same key |
| `Envelope.AlphabetsOfRfc4648` | services/platform-mihomo/internal/crypto/blob.go:35 | The letters of both base64 alphabets, the URL-safe one of envelopes and the standard one of keyring files, in their order (sections 4 and 5 of RFC 4648) |
| `Envelope.FullGroup` | services/platform-mihomo/internal/crypto/blob.go:35 | Three bytes become four letters, high bits first, whatever follows |
| `ArtifactAad.ArtifactAAD` | services/platform-mihomo/internal/crypto/artifact.go:83-90 | The loop hashes every part after its four-byte length |
| `ArtifactAad.EncodingInjective` | services/platform-mihomo/internal/crypto/artifact.go:83-90 | With parts below 2^32 bytes the hashed bytes determine the parts and their number |
| `ArtifactAad.LongLabelsCollide` | services/platform-mihomo/internal/crypto/artifact.go:35 | Behind v2 and any valid kid, a binding of 2^32 zero bytes without an account hashes like an account of 2^32 zero bytes without a binding |
| `ArtifactAad.ToldApartExactlyBelowFourGigabytes` | services/platform-mihomo/internal/crypto/artifact.go:35-90 | Over the lists the code hashes, the bytes tell all kids and labels below a limit apart if and only if the limit is at most 2^32 |
| `Fingerprints.Fingerprint` | contracts/runtime/go/operationid/operation_id.go:12-21 | Hashes kind and binding, each after its eight-byte length, then both generations in eight bytes |
| `Fingerprints.AuthorizationFenceFingerprint` | contracts/runtime/go/operationid/operation_id.go:23-34 | Hashes three strings, each after its eight-byte length, then the five numbers in order |
| `Fingerprints.PrimaryProfileFingerprint` | contracts/runtime/go/operationid/operation_id.go:36-47 | Hashes three strings, each after its eight-byte length, then the two numbers in order |
| `Fingerprints.WriteString` | contracts/runtime/go/operationid/operation_id.go:62-67 | A string is written after its eight-byte big-endian length |
| `Fingerprints.FingerprintsAreJointlyInjective` | contracts/runtime/go/operationid/operation_id.go:12-67 | For strings below 2^64 bytes the hashed bytes determine the format and every argument: each format is injective and the three are disjoint |
| `Fingerprints.NamedBytesInjective` | contracts/runtime/go/operationid/operation_id.go:23-47 | Two encodings with a third string agree only if all strings and all numbers, and how many there are, agree |
| `Fingerprints.OperationIsNotNamed` | contracts/runtime/go/operationid/operation_id.go:12-47 | The two-string format never equals a three-string format |
| `ByteCodes.PrefixedSplits` | contracts/runtime/go/operationid/operation_id.go:62-67 | A length-prefixed string can be split off whatever follows it in one way only |
| `SeedPolicies.UniquePolicyRules` | services/account-center/internal/casbin/policy_catalog.go:232-243 | Keeps the first occurrence of every rule, in order |
| `SeedPolicies.FirstOccurrencesAreTheRules` | services/account-center/internal/casbin/policy_catalog.go:232-243 | The result has exactly the given rules, each once |
| `SeedPolicies.DistinctIsKept` | services/account-center/internal/casbin/policy_catalog.go:232-243 | A list without repetitions is left as it is |
| `SeedPolicies.PoliciesForSystemRole` | services/account-center/internal/casbin/policy_catalog.go:196-211 | Nothing for an unknown role; otherwise exactly the rules of its permissions, and the admin rules for the admin role, once each |
| `SeedPolicies.PolicyKeyInjective` | services/account-center/initialize/seed/seed.go:361-363 | A policy without NUL bytes shares its key with no other policy whatever |
| `SeedPolicies.ReconciledExactly` | services/account-center/initialize/seed/seed.go:278-321 | A seeded role ends with exactly its desired set if and only if the store held no undesired policy of it with a desired key |
| `SeedPolicies.NulFreeHasNoImpostor` | services/account-center/initialize/seed/seed.go:361-363 | When the desired policies hold no NUL byte there is no such policy, NUL bytes in the store or not |
| `SeedPolicies.BuildSeedPolicies` | services/account-center/initialize/seed/seed.go:270-276 | One policy for each rule, in order, with the role as subject |
| `SeedPolicies.SeedingConverges` | services/account-center/initialize/seed/seed.go:246-321 | For desired policies built from NUL-free rules and a NUL-free role, any store ends with exactly those policies of the role |
| `SeedPolicies.Enforcer.Reconcile` | services/account-center/initialize/seed/seed.go:278-321 | For any role order: it succeeds exactly when no call of the store fails, and then the store and both counts are those of the specification; on an error no desired policy is removed and no other role is touched |
| `SeedPolicies.Enforcer.RemoveObsolete` | services/account-center/initialize/seed/seed.go:292-303 | Unless a call fails removes exactly the policies of the role whose key is not desired; the count is right also after an error |
| `SeedPolicies.Enforcer.AddDesired` | services/account-center/initialize/seed/seed.go:305-313 | Unless a call fails adds exactly what was missing; the count is right also after an error |
| `SeedPolicies.DiffPolicies` | services/account-center/initialize/seed/seed.go:323-359 | One policy for each key that only one of the two lists has, both ways, in ascending order of the keys |
| `SeedPolicies.ReconciledHasNoDiff` | services/account-center/initialize/seed/seed.go:323-353 | After a reconciliation the diff of every seeded role is empty both ways |
| `HealthMonitor.StepKeepsInv` | contracts/runtime/go/servicehealth/monitor.go:47-102 | Every step of every caller and of the ticking goroutine keeps the invariant |
| `HealthMonitor.NothingAfterShutdown` | contracts/runtime/go/servicehealth/monitor.go:47-60 | In every interleaving nothing is published after the shutdown signal, and the signal is sent at most once |
| `HealthMonitor.DoneIsClosedOnce` | contracts/runtime/go/servicehealth/monitor.go:72-102 | The channel is never closed twice, and it is closed and the publisher told once any Shutdown has returned |
| `HealthMonitor.EffectiveShutdownCanReturn` | contracts/runtime/go/servicehealth/monitor.go:90-101 | From every reachable state there is a continuation without new calls or ticks on which the effective Shutdown returns: it never waits on a channel nobody will close |
| `HealthMonitor.ShutdownCanReturn` | contracts/runtime/go/servicehealth/monitor.go:86-102 | The same for callers that wait for the first Shutdown |
| `HealthMonitorMethods.MonitorProcess.Refresh` | contracts/runtime/go/servicehealth/monitor.go:47-60 | Publishes what the check found as the latest event, or reports the shutdown exactly when the monitor is stopped by then |
| `HealthMonitorMethods.MonitorProcess.ShutDown` | contracts/runtime/go/servicehealth/monitor.go:86-102 | Returns with the monitor stopped, the channel closed once and the publisher told, whatever ran in between |
| `HealthMonitorMethods.MonitorProcess.TakeTurn` | contracts/runtime/go/servicehealth/monitor.go:91-100 | Each statement of the effective Shutdown is reached after finitely many steps of the others |

## Left out

- Re-encryption of a stored authkey inside GetAuthKey (services/platform-mihomo/internal/usecase/authkey_usecase.go:150-158): it changes the artifact value without a new intent; the step relation keeps one value for each key.
- Artifact types other than the authkey: InvalidateBinding skips them when it stages and drops them when it deletes.
- The Redis mirror of artifacts and its deletions: every read that matters goes to the database.
- A key whose process dies between its issue and its staging: nothing in the code tracks it, and no claim is made about it.
- Expiry of credentials by time: it is an inactive credential in the model.
- ArtifactRepo.ArtifactRepo.HasRevocationPending: its two counts read one state of the tables; in the saga they are two steps.
- ArtifactLifecycle.Service.ClaimIntents: an intent whose row another transaction has locked at that moment is skipped by the query; in the model the transactions that lock such rows are single steps. Identifiers are numbers and ordered as such; any total order would do.
- AuthkeyUsecase.AuthkeyUsecase.GetAuthKey: in the methods a rollback under the request happens around the upstream call; a rollback under an invalidation that the request runs is a step of `SagaSteps` only.
- AuthkeyUsecase.AuthkeyUsecase.ConfirmDeliverable: the confirmation of the source names a binding; the model ties it to the key it is asked for, and refuses one that GetAuthKey never gave out.
- OperationSteps.CanMutate: the callbacks complete an operation only as succeeded, as every callback of PlatformControlService does (services/platform-mihomo/internal/service/platform_control_service.go:180-182 and 499-510); Complete itself is modelled for every state.
- Operation callbacks: what a Bind, Replace, Refresh, Delete, fence or primary-profile callback writes besides the credential row and its generation is not part of the operation model; a callback may fail at any point.
- OperationUsecase.OperationUsecase.Execute: the reason stored with a failure is one constant; the mapping from error codes to reasons is a table. An error of LockPending or Complete itself counts as one of the callback.
- Tickets.Database.ApplyAuthorizationFence: the artifact invalidation inside it is a step that may fail; what it does is in the saga.
- Tickets.TicketVerifier.VerifyContext: parsing, signature, issuer, expiry and clock leeway are the JWT library's; the model starts from the parsed claims. A failing lookup query is not modelled.
- Hashes, HMAC, AES-GCM and JSON: only the bytes that go in are modelled.
- The in-memory queue's Start and Stop, metrics and logs: the worker of the model starts idle and may stop at its select; starting a stopped queue again is not modelled.
- EmailQueue.MemoryQueue.SendWithRetry: the sender's answers and the end of the context are arbitrary, and waiting takes no time; the trace records them.
- Operations.OperationRepo.LockPending: the lock that FOR UPDATE takes is a step of `OperationSteps`, where other threads can see it; the method answers only whether the row is there.
- SagaAcknowledged.DeliveredKeyIsLiveExactlyInItsRow: of a key whose compensation missed its intent the row does not tell whether it is live, and nothing is said of it.
- SagaBlindMarks.BlindMarkTakesBack: a key is on offer when a request that came now would read it; a key that could be read only after other intents of its binding are gone is covered by ConsiderateExactly at that read.
- Liveness under fair scheduling: timers fire and workers run at some time or never; safety is proved, for the monitor that Shutdown can always return, and for the email queue that everything accepted can be finished.
- gRPC, HTTP, configuration, TLS, metrics, account binding orchestration, SDK and frontend: plumbing without a property of its own.
