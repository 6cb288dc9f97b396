/**
 OperationUsecase.Execute as the service runs it: before each statement the other requests take any
 number of steps, and each statement may fail, or fail after its effect; what happens to the statements of
 one call is its script. Every execution is a run of the step relation.
 */
module OperationUsecase {
  import opened Operations
  import opened OperationSteps
  import opened OperationProof
  import opened OperationTheorems

  predicate ByOthers(t: ThreadId, actions: seq<Action>) {
    forall i :: 0 <= i < |actions| ==> actions[i].Happen? || actions[i].t != t
  }

  /** Everything that was settled stays settled, and every reference stays bound. */
  ghost predicate Advances(w: World, w': World) {
    Inv(w') && forall id :: History(w.db, w'.db, id)
  }

  lemma AdvancesTransitive(a: World, b: World, c: World)
    requires Advances(a, b) && Advances(b, c)
    ensures Advances(a, c)
  {
    forall id ensures History(a.db, c.db, id) { assert History(a.db, b.db, id) && History(b.db, c.db, id); }
  }

  lemma AdvancesByStep(w: World, a: Action)
    requires Inv(w) && Enabled(w, a)
    ensures Advances(w, Apply(w, a))
  {
    StepKeepsInv(w, a);
    forall id ensures History(w.db, Apply(w, a).db, id) { assert OpStep(w.db, Apply(w, a).db, ActorOf(a), id); }
  }

  /** Others leave a thread's phase alone, and the row it has locked. */
  lemma {:induction false} OthersKeep(w: World, t: ThreadId, actions: seq<Action>)
    requires Inv(w) && Runs(w, actions) && ByOthers(t, actions)
    ensures Advances(w, Final(w, actions))
    ensures t in w.threads <==> t in Final(w, actions).threads
    ensures t in w.threads ==> Final(w, actions).threads[t] == w.threads[t]
    decreases |actions|
  {
    if |actions| > 0 {
      AdvancesByStep(w, actions[0]);
      OthersKeep(Apply(w, actions[0]), t, actions[1..]);
      AdvancesTransitive(w, Apply(w, actions[0]), Final(w, actions));
    }
  }

  /** The row lock of an operation can only be its own executor's: nobody else ever waits for it. */
  lemma LockIsFree(w: World, t: ThreadId)
    requires Inv(w) && t in w.threads && !InTransaction(w.threads[t])
    ensures w.threads[t].ref.id !in w.db.opLocks
  {
    assert LockOwned(w, w.threads[t].ref.id);
  }

  datatype Answer =
    | Executed(record: Record)   // this call executed the operation
    | Replayed(record: Record)   // an earlier call was admitted; its record as it stands now
    | Invalid                    // the reference is not well formed
    | Conflict                   // the id is bound to another reference
    | NotAdmitted                // the admission itself failed
    | Errored                    // this call was admitted, and its transaction failed

  /** What the mutation callback does: it fails, or it wants to write the credential row and reports a result. */
  datatype Mutation = Errs | Writes(write: Write, account: string, snapshot: string)

  /** What becomes of the statements of one call, should it come to them. */
  datatype Script = Script(admission: Outcome, mutation: Mutation, commit: Outcome, failure: Outcome)

  /** The credential row after the write. */
  predicate Shows(db: Db, ref: OperationRef, write: Write) {
    match write
    case Create(account) => ref.binding in db.creds && db.creds[ref.binding] == Credential(account, ref.target)
    case Advance(account) => ref.binding in db.creds && db.creds[ref.binding] == Credential(account, ref.target)
    case Remove => ref.binding !in db.creds
    case Touch => ref.binding in db.creds && db.creds[ref.binding].generation == ref.pre
    case NoRow => true
  }

  /**
   The admitted operation met a record that is settled already, or a credential row that is locked, missing, of another
   account or generation, or there when it is to be created; or the callback writes what its kind may not.
   */
  predicate Hindered(db: Db, ref: OperationRef, write: Write) {
    || (ref.id in db.ops && db.ops[ref.id].report.state != Pending)
    || !Fits(ref.kind, write)
    || (!write.NoRow? && ref.binding in db.credLocks)
    || match write
       case Create(_) => ref.pre != 0 || ref.binding in db.creds
       case Advance(account) =>
         ref.binding !in db.creds || db.creds[ref.binding].account != account || db.creds[ref.binding].generation != ref.pre
       case NoRow => ref.binding in db.creds
       case _ => ref.binding !in db.creds || db.creds[ref.binding].generation != ref.pre
  }

  class OperationUsecase {
    var world: World

    constructor()
      ensures world == EMPTY_WORLD && Inv(world)
    {
      world := EMPTY_WORLD;
      EmptyWorldInv();
    }

    method Interleave(t: ThreadId)
      requires Inv(world)
      modifies this
      ensures Advances(old(world), world)
      ensures t in old(world).threads <==> t in world.threads
      ensures t in world.threads ==> world.threads[t] == old(world).threads[t]
    {
      assert Runs(world, []) && ByOthers(t, []);
      var actions: seq<Action> :| Runs(world, actions) && ByOthers(t, actions);
      OthersKeep(world, t, actions);
      world := Final(world, actions);
    }

    /** This thread makes its move. */
    method Do(t: ThreadId, m: Move)
      requires Inv(world) && t in world.threads && Enabled(world, Act(t, m))
      modifies this
      ensures world == Apply(old(world), Act(t, m)) && Advances(old(world), world)
    {
      AdvancesByStep(world, Act(t, m));
      world := Apply(world, Act(t, m));
    }

    /** Admit: a thread exists afterwards exactly when this call was told it is the one to execute. */
    method Admit(t: ThreadId, ref: OperationRef, outcome: Outcome) returns (admitted: bool, ghost at: World)
      requires Inv(world) && t !in world.threads && ValidRef(ref)
      modifies this
      ensures Advances(old(world), at) && Advances(at, world)
      ensures admitted <==> outcome == Done && ref.id !in at.db.ops
      ensures admitted ==> t in world.threads && world.threads[t].Admitted? && world.threads[t].ref == ref
      ensures !admitted ==> t !in world.threads && (outcome == Done ==> world.db.ops == at.db.ops)
    {
      Interleave(t);
      at := world;
      var a := Action.Execute(t, ref, outcome);
      AdvancesByStep(world, a);
      admitted := ref.id !in world.db.ops && outcome == Done;
      world := Apply(world, a);
    }

    /**
     The transaction of Execute: it ends with the operation executed, or with the thread failing. When neither the
     callback nor the commit failed, it was hindered at the moment `at`.
     */
    method RunTransaction(t: ThreadId, ref: OperationRef, mutation: Mutation, commit: Outcome)
      returns (ok: bool, ghost at: World)
      requires Inv(world) && t in world.threads && world.threads[t].Admitted? && world.threads[t].ref == ref
      modifies this
      ensures Advances(old(world), world) && Advances(old(world), at)
      ensures ok ==> ref.id in world.db.effects && t !in world.threads && mutation.Writes? && commit == Done
      ensures ok ==> Shows(world.db, ref, mutation.write) && Reports(world.db, ref, mutation)
      ensures !ok ==> t in world.threads && world.threads[t].Failing? && world.threads[t].ref == ref
      ensures !ok && mutation.Writes? && commit == Done ==> Hindered(at.db, ref, mutation.write)
    {
      ok, at := Lock(t, ref);
      if !ok { return; }
      ghost var before := world;
      ok, at := Callback(t, ref, mutation);
      AdvancesTransitive(old(world), before, at);
      AdvancesTransitive(old(world), before, world);
      if !ok { return; }
      before := world;
      ok := CommitTransaction(t, ref, mutation, commit);
      AdvancesTransitive(old(world), before, world);
    }

    method Lock(t: ThreadId, ref: OperationRef) returns (ok: bool, ghost at: World)
      requires Inv(world) && t in world.threads && world.threads[t].Admitted? && world.threads[t].ref == ref
      modifies this
      ensures Advances(old(world), world) && Advances(old(world), at) && t in world.threads && world.threads[t].ref == ref
      ensures if ok then world.threads[t].Locked? else world.threads[t].Failing?
      ensures ref.id in at.db.ops && (ok <==> at.db.ops[ref.id].report.state == Pending)
    {
      Interleave(t);
      at := world;
      LockIsFree(world, t);
      assert Holds(world.db, t, world.threads[t]);
      Do(t, Move.LockPending);
      AdvancesTransitive(old(world), at, world);
      ok := world.threads[t].Locked?;
    }

    /** The mutation callback, then Complete; a callback that fails rolls the transaction back. */
    method Callback(t: ThreadId, ref: OperationRef, mutation: Mutation) returns (ok: bool, ghost at: World)
      requires Inv(world) && t in world.threads && world.threads[t].Locked? && world.threads[t].ref == ref
      modifies this
      ensures Advances(old(world), world) && Advances(old(world), at) && t in world.threads && world.threads[t].ref == ref
      ensures if ok then mutation.Writes? && HasCompleted(world.threads[t], mutation) else world.threads[t].Failing?
      ensures !ok && mutation.Writes? ==> Hindered(at.db, ref, mutation.write)
    {
      Interleave(t);
      at := world;
      if mutation.Writes? && !Hindered(world.db, ref, mutation.write) { UnhinderedCanMutate(world, t, mutation.write); }
      if mutation.Errs? || !CanMutate(world.db, ref, mutation.write) {
        Do(t, Abort);
        AdvancesTransitive(old(world), at, world);
        return false, at;
      }
      Do(t, Mutate(mutation.write));
      AdvancesTransitive(old(world), at, world);
      ghost var before := world;
      CompleteNow(t, ref, mutation);
      AdvancesTransitive(old(world), before, world);
      ok := true;
    }

    method CompleteNow(t: ThreadId, ref: OperationRef, mutation: Mutation)
      requires Inv(world) && t in world.threads && mutation.Writes? && world.threads[t].Mutated?
      requires world.threads[t].ref == ref && world.threads[t].write == mutation.write
      modifies this
      ensures Advances(old(world), world) && t in world.threads && world.threads[t].ref == ref
      ensures HasCompleted(world.threads[t], mutation)
    {
      Interleave(t);
      ghost var before := world;
      Do(t, Move.Complete(Report(Succeeded, "", mutation.account, "", mutation.snapshot)));
      AdvancesTransitive(old(world), before, world);
    }

    method CommitTransaction(t: ThreadId, ref: OperationRef, mutation: Mutation, outcome: Outcome) returns (ok: bool)
      requires Inv(world) && t in world.threads && world.threads[t].ref == ref
      requires mutation.Writes? && HasCompleted(world.threads[t], mutation)
      modifies this
      ensures Advances(old(world), world) && (ok <==> outcome == Done)
      ensures ok ==> ref.id in world.db.effects && t !in world.threads
      ensures ok ==> Shows(world.db, ref, mutation.write) && Reports(world.db, ref, mutation)
      ensures !ok ==> t in world.threads && world.threads[t].Failing? && world.threads[t].ref == ref
    {
      Interleave(t);
      ghost var before := world;
      CompletedCanCommit(world, t, outcome);
      if outcome == Done { CommitShows(world, t, mutation); }
      Do(t, Commit(outcome));
      AdvancesTransitive(old(world), before, world);
      ok := outcome == Done;
    }

    /**
     FailPending after an error, at the moment `at`; its own error is ignored, and the request is over either way.
     Unless the statement is refused, a row that is still pending fails.
     */
    method FailPending(t: ThreadId, ref: OperationRef, outcome: Outcome) returns (ghost at: World)
      requires Inv(world) && t in world.threads && world.threads[t].Failing? && world.threads[t].ref == ref
      modifies this
      ensures Advances(old(world), at) && Advances(at, world) && t !in world.threads
      ensures ref.id in at.db.ops && at.db.ops[ref.id].ref == ref && ref.id in world.db.ops
      ensures at.db.ops[ref.id].report.state != Pending || outcome == Refused ==> world.db.ops == at.db.ops
      ensures at.db.ops[ref.id].report.state == Pending && outcome != Refused ==>
        && world.db.ops[ref.id].report == at.db.ops[ref.id].report.(state := Failed, reason := "internal_failure")
        && world.db.ops[ref.id].ref == ref
    {
      Interleave(t);
      at := world;
      LockIsFree(world, t);
      assert Holds(world.db, t, world.threads[t]);
      Do(t, Move.FailPending("internal_failure", outcome));
    }

    /**
     Execute. When this call was admitted and its transaction failed, the failure is stored, at the moment `at`, unless
     that statement is refused or somebody has settled the row before: only a refused statement leaves it pending.
     When neither the callback nor the commit failed, the operation is executed, or was hindered at the moment `met`.
     */
    method Execute(t: ThreadId, ref: OperationRef, script: Script)
      returns (answer: Answer, ghost met: World, ghost at: World)
      requires Inv(world) && t !in world.threads
      modifies this
      ensures Advances(old(world), world) && t !in world.threads
      ensures answer.Invalid? <==> !ValidRef(ref)
      ensures answer.Invalid? ==> world == old(world)
      ensures answer.NotAdmitted? <==> ValidRef(ref) && script.admission != Done
      ensures answer.Executed? || answer.Errored? ==> ref.id !in old(world).db.ops
      ensures answer.Executed? ==>
        && script.mutation.Writes? && script.commit == Done
        && ref.id in world.db.effects && MayHaveMoved(world.db, ref) && Shows(world.db, ref, script.mutation.write)
        && ref.id in world.db.ops && answer.record == world.db.ops[ref.id] && answer.record.ref == ref
        && answer.record.report == Report(Succeeded, "", script.mutation.account, "", script.mutation.snapshot)
      ensures answer.Replayed? ==> answer.record.ref == ref && ref.id in world.db.ops && answer.record == world.db.ops[ref.id]
      ensures answer.Conflict? ==> ref.id in world.db.ops && world.db.ops[ref.id].ref != ref
      ensures answer.Errored? ==>
        && Advances(old(world), at) && Advances(at, world)
        && ref.id in at.db.ops && at.db.ops[ref.id].ref == ref && ref.id in world.db.ops
        && (at.db.ops[ref.id].report.state != Pending || script.failure == Refused ==> world.db.ops == at.db.ops)
        && (at.db.ops[ref.id].report.state == Pending && script.failure != Refused ==>
              && world.db.ops[ref.id].report.state == Failed
              && world.db.ops[ref.id].report.reason == "internal_failure")
      ensures answer.Errored? && script.failure != Refused ==> world.db.ops[ref.id].report.state != Pending
      ensures answer.Errored? && script.mutation.Writes? && script.commit == Done ==>
        Advances(old(world), met) && Hindered(met.db, ref, script.mutation.write)
    {
      AdvancesSelf(world);
      met, at := world, world;
      if !ValidRef(ref) { return Invalid, met, at; }
      var admitted;
      admitted, at := Admit(t, ref, script.admission);
      AdvancesTransitive(old(world), at, world);
      assert History(old(world).db, at.db, ref.id);
      if script.admission != Done { return NotAdmitted, met, at; }
      if !admitted {
        var record := world.db.ops[ref.id];
        if record.ref != ref { return Answer.Conflict, met, at; }
        return Replayed(record), met, at;
      }
      answer, met, at := ExecuteAdmitted(t, ref, script, old(world));
    }

    /** Execute after its admission. */
    method ExecuteAdmitted(t: ThreadId, ref: OperationRef, script: Script, ghost start: World)
      returns (answer: Answer, ghost met: World, ghost at: World)
      requires Inv(world) && t in world.threads && world.threads[t].Admitted? && world.threads[t].ref == ref
      requires Advances(start, world)
      modifies this
      ensures Advances(start, world) && t !in world.threads && (answer.Executed? || answer.Errored?)
      ensures answer.Executed? ==>
        && script.mutation.Writes? && script.commit == Done
        && ref.id in world.db.effects && MayHaveMoved(world.db, ref) && Shows(world.db, ref, script.mutation.write)
        && Reports(world.db, ref, script.mutation) && answer.record == world.db.ops[ref.id]
      ensures answer.Errored? ==>
        && Advances(start, at) && Advances(at, world)
        && ref.id in at.db.ops && at.db.ops[ref.id].ref == ref && ref.id in world.db.ops
        && (at.db.ops[ref.id].report.state != Pending || script.failure == Refused ==> world.db.ops == at.db.ops)
        && (at.db.ops[ref.id].report.state == Pending && script.failure != Refused ==>
              && world.db.ops[ref.id].report.state == Failed
              && world.db.ops[ref.id].report.reason == "internal_failure")
      ensures answer.Errored? && script.mutation.Writes? && script.commit == Done ==>
        Advances(start, met) && Hindered(met.db, ref, script.mutation.write)
    {
      ghost var before := world;
      var ok;
      ok, met := RunTransaction(t, ref, script.mutation, script.commit);
      AdvancesTransitive(start, before, world);
      AdvancesTransitive(start, before, met);
      at := world;
      if ok {
        EffectIffSucceeded(world, ref.id);
        return Executed(world.db.ops[ref.id]), met, at;
      }
      before := world;
      at := FailPending(t, ref, script.failure);
      AdvancesTransitive(start, before, at);
      AdvancesTransitive(start, at, world);
      answer := Errored;
    }
  }

  /** The thread has buffered what the callback asked for. */
  predicate HasCompleted(th: Thread, mutation: Mutation)
    requires mutation.Writes?
  {
    && th.Completed? && th.write == mutation.write
    && th.report == Report(Succeeded, "", mutation.account, "", mutation.snapshot)
  }

  /** The record of the operation says what the callback reported. */
  predicate Reports(db: Db, ref: OperationRef, mutation: Mutation) {
    && mutation.Writes? && ref.id in db.ops && db.ops[ref.id].ref == ref
    && db.ops[ref.id].report == Report(Succeeded, "", mutation.account, "", mutation.snapshot)
  }

  lemma UnhinderedCanMutate(w: World, t: ThreadId, write: Write)
    requires Inv(w) && t in w.threads && w.threads[t].Locked? && !Hindered(w.db, w.threads[t].ref, write)
    ensures CanMutate(w.db, w.threads[t].ref, write)
  {
    assert Holds(w.db, t, w.threads[t]) && OpOk(w.db, w.threads[t].ref.id);
  }

  lemma CommitShows(w: World, t: ThreadId, mutation: Mutation)
    requires Inv(w) && t in w.threads && mutation.Writes? && HasCompleted(w.threads[t], mutation)
    requires Enabled(w, Act(t, Commit(Done)))
    ensures var db' := Apply(w, Act(t, Commit(Done))).db;
      Shows(db', w.threads[t].ref, mutation.write) && Reports(db', w.threads[t].ref, mutation)
  {
    assert Holds(w.db, t, w.threads[t]);
  }

  /** A succeeded Replace or Refresh has moved its credential row; no other kind ever moves one. */
  ghost predicate MayHaveMoved(db: Db, ref: OperationRef) {
    MovedGeneration(db, ref.id) <==> Advancing(ref.kind)
  }

  lemma AdvancesSelf(w: World)
    requires Inv(w)
    ensures Advances(w, w)
  {
  }

}
