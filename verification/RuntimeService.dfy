/** GetAuthKey of the runtime service: the key, its confirmation, and the invalidation after a refusal. */
module RuntimeService {
  import opened Authorization
  import opened SagaState
  import opened SagaSteps
  import opened SagaInvariant
  import opened ArtifactLifecycle
  import opened AuthkeyAnswers
  import opened AuthkeyUsecase

  datatype Response =
    | Answered(key: Key)
    | NotIssued(answer: Answer)
    | Refused(key: Key, confirmation: Confirmation, listed: seq<Key>, result: Result)

  class RuntimeService {
    const usecase: AuthkeyUsecase
    const service: Service

    ghost predicate Valid() {
      usecase.service == service
    }

    constructor()
      ensures Valid() && fresh(service) && service.world == EMPTY_WORLD && Inv(service.world)
    {
      var u := new AuthkeyUsecase();
      usecase := u;
      service := u.service;
    }

    method StartUnlocked(t: ThreadId, binding: Binding)
      requires Inv(service.world) && t !in service.world.threads
      modifies service`world
      ensures Advances(old(service.world), service.world)
      ensures t in service.world.threads && service.world.threads[t] == Listing(Cause(binding, false, Standalone))
    {
      AdvancesByStep(service.world, Begin(t, Request.InvalidateUnlocked(binding)));
      service.world := Apply(service.world, Begin(t, Request.InvalidateUnlocked(binding)));
    }

    /** InvalidateBinding outside any transaction, at the moment `at`, as the response path calls it after a refusal. */
    method InvalidateUnlocked(t: ThreadId, binding: Binding) returns (listed: seq<Key>, result: Result, ghost at: World)
      requires Inv(service.world) && t !in service.world.threads
      modifies service
      ensures Advances(old(service.world), at) && Advances(at, service.world) && t !in service.world.threads
      ensures Invalidated(at, service.world, binding, listed, result)
      ensures Reported(old(service.faults), service.faults, result == Success)
    {
      StartUnlocked(t, binding);
      ghost var before := service.world;
      listed, result, at := RunUnlocked(t, binding);
      AdvancesTransitive(old(service.world), before, at);
    }

    method RunUnlocked(t: ThreadId, binding: Binding) returns (listed: seq<Key>, result: Result, ghost at: World)
      requires Inv(service.world) && t in service.world.threads
      requires service.world.threads[t] == Listing(Cause(binding, false, Standalone))
      modifies service
      ensures Advances(old(service.world), at) && Advances(at, service.world) && t !in service.world.threads
      ensures Invalidated(at, service.world, binding, listed, result)
      ensures Reported(old(service.faults), service.faults, result == Success)
    {
      listed, result, at := service.InvalidateBinding(t, Cause(binding, false, Standalone));
      ghost var before := service.world;
      EndUnlocked(t, binding, result);
      AdvancesTransitive(at, before, service.world);
      StaysInvalidated(at, before, service.world, binding, listed, result);
    }

    method EndUnlocked(t: ThreadId, binding: Binding, result: Result)
      requires Inv(service.world) && t in service.world.threads
      requires service.world.threads[t] == Concluding(Cause(binding, false, Standalone), result)
      modifies service`world
      ensures Advances(old(service.world), service.world) && t !in service.world.threads
    {
      service.Do(t, Move.Commit(Done));
    }

    /**
     A key goes out only after both calls said yes. When the confirmation refuses, at the moment `refused`, the rows of
     the binding are listed after that, at the moment `at`, and invalidated; unless something goes wrong that revokes
     every key they carry, the refused one too if it is still in its row.
     */
    method Respond(t: ThreadId, slot: Slot, consumer: Consumer, versions: Versions, upstream: Upstream)
      returns (response: Response, ghost trail: Trail, ghost refused: World, ghost at: World)
      requires Valid() && Inv(service.world) && t !in service.world.threads
      modifies service
      ensures Advances(old(service.world), service.world) && t !in service.world.threads
      ensures response.Answered? ==>
        && OfSlot(service.world.db, slot, response.key) && service.faults == old(service.faults)
        && RightlyGiven(response.key, trail.met.db, slot, upstream)
        && ConfirmedNow(service.world.db, Delivery(response.key, consumer, versions))
      ensures response.NotIssued? ==>
        && !response.answer.Given? && Advances(old(service.world), trail.locked) && InOrder(trail, service.world)
        && Explained(response.answer, trail, service.world, slot, upstream, service.faults - old(service.faults))
      ensures response.Refused? ==>
        && Advances(old(service.world), refused) && Advances(refused, at) && Advances(at, service.world)
        && OfSlot(refused.db, slot, response.key) && !response.confirmation.Deliverable?
        && (response.confirmation.Undeliverable? ==> !MayDeliver(refused.db, slot.binding, consumer, versions))
        && Invalidated(at, service.world, slot.binding, response.listed, response.result)
        && Reported(old(service.faults) + if response.confirmation.Interrupted? then 1 else 0, service.faults,
                    response.result == Success)
      ensures response.Refused? && response.result == Success && InRow(at.db, response.key) && !Expired(at.db, response.key) ==>
        response.key in service.world.db.acked
    {
      var answer;
      answer, trail := usecase.GetAuthKey(t, slot, upstream);
      ghost var given := service.world;
      refused, at := given, given;
      GivenAfter(old(service.world), trail, given);
      if !answer.Given? { return NotIssued(answer), trail, refused, at; }
      var d := Delivery(answer.key, consumer, versions);
      var confirmation;
      confirmation, refused := usecase.ConfirmDeliverable(t, d);
      StillOffered(given, refused, slot, answer.key);
      AdvancesTransitive(old(service.world), given, refused);
      if confirmation.Deliverable? {
        assert KeyKept(refused.db, service.world.db, answer.key);
        AdvancesTransitive(old(service.world), refused, service.world);
        return Answered(answer.key), trail, refused, at;
      }
      ghost var before := service.world;
      var listed, result;
      listed, result, at := InvalidateUnlocked(t, slot.binding);
      AdvancesTransitive(refused, before, at);
      AdvancesTransitive(old(service.world), refused, at);
      AdvancesTransitive(old(service.world), at, service.world);
      assert KeyKept(refused.db, at.db, answer.key);
      response := Refused(answer.key, confirmation, listed, result);
    }
  }

  lemma GivenAfter(start: World, trail: Trail, end: World)
    requires Advances(start, trail.locked) && InOrder(trail, end)
    ensures Advances(start, end)
  {
    AdvancesTransitive(start, trail.locked, trail.met);
    AdvancesTransitive(start, trail.met, trail.listed);
    AdvancesTransitive(start, trail.listed, end);
  }

  lemma StillOffered(given: World, later: World, slot: Slot, key: Key)
    requires Advances(given, later) && HandedOut(given.db, slot, key)
    ensures IsOffered(later.db, key) && OfSlot(later.db, slot, key)
  {
    assert KeyKept(given.db, later.db, key);
  }

}
