/**
 Authorization fences, grant invalidations and the verification of service tickets after their
 signature was checked.
 */
module Tickets {
  import opened Authorization

  type Scope = (string, string) // binding and consumer principal

  /** The generation column of credential_records, and the two revocation tables. */
  datatype Tables = Tables(
    generations: map<string, nat>,
    fences: map<Scope, Fence>,
    minimums: map<Scope, nat>)

  const EMPTY_TABLES := Tables(map[], map[], map[])

  function StoredFence(tables: Tables, scope: Scope): Fence {
    if scope in tables.fences then tables.fences[scope] else OPEN_FENCE
  }

  function StoredMinimum(tables: Tables, scope: Scope): nat {
    if scope in tables.minimums then tables.minimums[scope] else 0
  }

  // ---------- Tickets ----------

  const TYPE_CONTROL := "paigram-platform-control+jwt"
  const TYPE_DELEGATION := "paigram-platform-delegation+jwt"
  const MAXIMUM_TICKET_TTL := 300

  datatype Option<T> = None | Some(value: T)

  datatype Claims = Claims(
    subject: string, id: string, issuedAt: Option<int>, notBefore: Option<int>, expiresAt: Option<int>,
    audience: seq<string>, actorType: string, actorId: string, ownerUserRef: string, entryIdentityRef: string,
    binding: string, platform: string, consumer: string, consumerPrincipal: string, versions: Versions,
    scopes: seq<string>, allowedActions: seq<string>)

  /** A ticket whose signature, issuer and times the JWT library accepted. */
  datatype Ticket = Ticket(typ: string, claims: Claims)

  datatype Verdict = Accepted(scopes: seq<string>) | Malformed(reason: string) | Revoked

  /** The registered claims and the lifetime every ticket needs. */
  predicate WellFormed(claims: Claims, audience: string) {
    && claims.subject != "" && claims.id != ""
    && claims.issuedAt.Some? && claims.notBefore.Some? && claims.expiresAt.Some?
    && claims.actorType != "" && claims.actorId != "" && claims.binding != "" && claims.platform != ""
    && claims.audience == [audience]
    && 0 < claims.expiresAt.value - claims.issuedAt.value <= MAXIMUM_TICKET_TTL
  }

  predicate Versioned(v: Versions) {
    v.grant > 0 && v.owner > 0 && v.consumer > 0 && v.entry > 0 && v.generation > 0
  }

  predicate WellFormedConsumer(t: Ticket) {
    var c := t.claims;
    && t.typ == TYPE_DELEGATION
    && c.consumer != "" && c.consumer == c.consumerPrincipal
    && c.ownerUserRef != "" && c.entryIdentityRef != ""
    && Versioned(c.versions)
    && c.subject == "consumer:" + c.consumer
  }

  predicate WellFormedControl(t: Ticket) {
    var c := t.claims;
    && t.typ == TYPE_CONTROL
    && if c.actorType == "user" || c.actorType == "admin" then
         c.ownerUserRef != "" && c.subject == "user:" + c.ownerUserRef
       else c.actorType == "system" && c.subject == "system:account-center"
  }

  function ScopeOf(c: Claims): Scope {
    (c.binding, c.consumer)
  }

  /** The row the fence belongs to exists at the ticket's generation, and the ticket clears the fence. */
  predicate CurrentAndClear(tables: Tables, c: Claims) {
    && c.binding in tables.generations
    && c.versions.generation == tables.generations[c.binding]
    && Clears(c.versions, StoredFence(tables, ScopeOf(c)))
  }

  predicate GrantCurrent(tables: Tables, c: Claims) {
    c.versions.grant >= StoredMinimum(tables, ScopeOf(c))
  }

  predicate Admissible(t: Ticket, audience: string) {
    WellFormed(t.claims, audience) && if t.claims.actorType == "consumer" then WellFormedConsumer(t) else WellFormedControl(t)
  }

  datatype AuthorizationState = AuthorizationState(fence: Fence, generation: nat)

  class Database {
    var tables: Tables

    constructor()
      ensures tables == EMPTY_TABLES
    {
      tables := EMPTY_TABLES;
    }

    /** AuthorizationFenceRepo.Upsert: no component of the stored fence ever goes down. */
    method UpsertFence(binding: string, consumer: string, fence: Fence)
      modifies this
      ensures tables == old(tables).(fences := tables.fences) && (binding, consumer) in tables.fences
      ensures tables.fences == old(tables).fences[(binding, consumer) := tables.fences[(binding, consumer)]]
      ensures StoredFence(tables, (binding, consumer)) == Join(StoredFence(old(tables), (binding, consumer)), fence)
    {
      var scope := (binding, consumer);
      var record := fence;
      if scope in tables.fences {
        var stored := tables.fences[scope];
        if record.grant < stored.grant { record := record.(grant := stored.grant); }
        if record.owner < stored.owner { record := record.(owner := stored.owner); }
        if record.consumer < stored.consumer { record := record.(consumer := stored.consumer); }
        if record.entry < stored.entry { record := record.(entry := stored.entry); }
      }
      tables := tables.(fences := tables.fences[scope := record]);
    }

    /** GrantInvalidationRepo.Upsert. */
    method UpsertInvalidation(binding: string, consumer: string, minimum: nat)
      modifies this
      ensures tables == old(tables).(minimums := tables.minimums) && (binding, consumer) in tables.minimums
      ensures tables.minimums == old(tables).minimums[(binding, consumer) := tables.minimums[(binding, consumer)]]
      ensures StoredMinimum(tables, (binding, consumer)) == Max(StoredMinimum(old(tables), (binding, consumer)), minimum)
    {
      var scope := (binding, consumer);
      var kept := if scope in tables.minimums && tables.minimums[scope] > minimum then tables.minimums[scope] else minimum;
      tables := tables.(minimums := tables.minimums[scope := kept]);
    }

    /** GrantInvalidationRepo.MinimumVersion. */
    method MinimumVersion(binding: string, consumer: string) returns (minimum: nat)
      ensures minimum == StoredMinimum(tables, (binding, consumer))
    {
      if (binding, consumer) !in tables.minimums { return 0; }
      minimum := tables.minimums[(binding, consumer)];
    }

    /** TicketAuthorizationStateLookup: without a credential row even a stored fence is not reported. */
    method LookupAuthorizationState(binding: string, consumer: string) returns (state: AuthorizationState)
      ensures binding !in tables.generations ==> state == AuthorizationState(OPEN_FENCE, 0)
      ensures binding in tables.generations ==>
        state == AuthorizationState(StoredFence(tables, (binding, consumer)), tables.generations[binding])
    {
      state := AuthorizationState(OPEN_FENCE, 0);
      if binding !in tables.generations { return; }
      state := state.(generation := tables.generations[binding]);
      if (binding, consumer) !in tables.fences { return; }
      var fence := tables.fences[(binding, consumer)];
      state := state.(fence := state.fence.(grant := fence.grant));
      state := state.(fence := state.fence.(owner := fence.owner));
      state := state.(fence := state.fence.(consumer := fence.consumer));
      state := state.(fence := state.fence.(entry := fence.entry));
    }

    /**
     ApplyAuthorizationFence under the credential row lock. Both records are written in one transaction,
     which a failing upsert or a failing invalidation rolls back; `fails` says whether one of them does.
     */
    method ApplyAuthorizationFence(binding: string, consumer: string, fence: Fence, pre: nat, fails: bool) returns (ok: bool)
      modifies this
      ensures tables == if ok then After(old(tables), ApplyFence(binding, consumer, fence, pre)) else old(tables)
      ensures ok <==>
        && !fails && consumer != "" && fence.grant > 0
        && binding in old(tables).generations && old(tables).generations[binding] == pre
      ensures ok ==>
        && (binding, consumer) in tables.fences && (binding, consumer) in tables.minimums
        && tables.fences[(binding, consumer)].grant >= fence.grant && tables.fences[(binding, consumer)].owner >= fence.owner
        && tables.fences[(binding, consumer)].consumer >= fence.consumer && tables.fences[(binding, consumer)].entry >= fence.entry
        && tables.minimums[(binding, consumer)] >= fence.grant
    {
      if consumer == "" || fence.grant == 0 { return false; }
      if binding !in tables.generations || tables.generations[binding] != pre { return false; }
      var before := tables;
      UpsertFence(binding, consumer, fence);
      UpsertInvalidation(binding, consumer, fence.grant);
      if fails {
        tables := before;
        return false;
      }
      ok := true;
    }
  }

  class TicketVerifier {
    const database: Database
    const checksGrants: bool
    const checksState: bool

    /** The options add the grant lookup and the state lookup. */
    constructor(database: Database, checksGrants: bool, checksState: bool)
      ensures this.database == database && this.checksGrants == checksGrants && this.checksState == checksState
    {
      this.database, this.checksGrants, this.checksState := database, checksGrants, checksState;
    }

    /** The registered claims, and then the fields of every actor. */
    method CheckCommon(c: Claims, audience: string) returns (verdict: Option<Verdict>)
      ensures verdict.None? <==> WellFormed(c, audience)
      ensures verdict.Some? ==> verdict.value.Malformed?
    {
      if c.subject == "" || c.id == "" || c.issuedAt.None? || c.notBefore.None? {
        return Some(Malformed("service ticket missing required registered claim"));
      }
      if c.actorType == "" { return Some(Malformed("service ticket missing actor_type")); }
      if c.actorId == "" { return Some(Malformed("service ticket missing actor_id")); }
      if c.binding == "" { return Some(Malformed("service ticket missing binding_ref")); }
      if c.platform == "" { return Some(Malformed("service ticket missing platform")); }
      if |c.audience| != 1 || c.audience[0] != audience {
        return Some(Malformed("service ticket audience must be a single exact value"));
      }
      if c.expiresAt.None? || c.expiresAt.value - c.issuedAt.value <= 0
         || c.expiresAt.value - c.issuedAt.value > MAXIMUM_TICKET_TTL {
        return Some(Malformed("service ticket lifetime exceeds the allowed profile"));
      }
      verdict := None;
    }

    method CheckConsumer(t: Ticket) returns (verdict: Option<Verdict>)
      ensures verdict.None? && checksState ==>
        && t.claims.binding in database.tables.generations
        && t.claims.versions.generation == database.tables.generations[t.claims.binding]
        && t.claims.versions.grant >= StoredFence(database.tables, ScopeOf(t.claims)).grant
        && t.claims.versions.owner >= StoredFence(database.tables, ScopeOf(t.claims)).owner
        && t.claims.versions.consumer >= StoredFence(database.tables, ScopeOf(t.claims)).consumer
        && t.claims.versions.entry >= StoredFence(database.tables, ScopeOf(t.claims)).entry
      ensures verdict.None? <==>
        && WellFormedConsumer(t)
        && (checksGrants ==> GrantCurrent(database.tables, t.claims))
        && (checksState ==> CurrentAndClear(database.tables, t.claims))
      ensures verdict.Some? ==> (verdict.value == Revoked <==> WellFormedConsumer(t)) && !verdict.value.Accepted?
    {
      var c := t.claims;
      if t.typ != TYPE_DELEGATION { return Some(Malformed("consumer ticket must use delegation typ")); }
      if c.consumer == "" || c.consumerPrincipal == "" || c.consumer != c.consumerPrincipal {
        return Some(Malformed("service ticket missing consumer principal"));
      }
      if c.ownerUserRef == "" || c.entryIdentityRef == "" {
        return Some(Malformed("service ticket missing stable identity reference"));
      }
      var v := c.versions;
      if v.grant == 0 || v.owner == 0 || v.consumer == 0 || v.entry == 0 || v.generation == 0 {
        return Some(Malformed("service ticket missing authorization version"));
      }
      if c.subject != "consumer:" + c.consumer {
        return Some(Malformed("service ticket subject does not match consumer"));
      }
      if checksGrants {
        var minimum := database.MinimumVersion(c.binding, c.consumer);
        if minimum > 0 && v.grant < minimum { return Some(Revoked); }
      }
      if checksState {
        var state := database.LookupAuthorizationState(c.binding, c.consumer);
        if v.grant < state.fence.grant || v.owner < state.fence.owner || v.consumer < state.fence.consumer
           || v.entry < state.fence.entry || v.generation != state.generation {
          return Some(Revoked);
        }
      }
      verdict := None;
    }

    method CheckControl(t: Ticket) returns (verdict: Option<Verdict>)
      ensures verdict.None? <==> WellFormedControl(t)
      ensures verdict.Some? ==> verdict.value.Malformed?
    {
      var c := t.claims;
      if t.typ != TYPE_CONTROL { return Some(Malformed("non-consumer ticket must use control typ")); }
      if c.actorType == "user" || c.actorType == "admin" {
        if c.ownerUserRef == "" { return Some(Malformed("service ticket missing owner_user_ref")); }
        if c.subject != "user:" + c.ownerUserRef {
          return Some(Malformed("service ticket subject does not match owner"));
        }
      } else if c.actorType == "system" {
        if c.subject != "system:account-center" {
          return Some(Malformed("service ticket subject does not match system actor"));
        }
      } else {
        return Some(Malformed("unsupported service ticket actor_type"));
      }
      verdict := None;
    }

    /** VerifyContext after jwt.ParseWithClaims succeeded. */
    method VerifyContext(t: Ticket, audience: string) returns (verdict: Verdict)
      ensures verdict.Accepted? <==> Accepts(database.tables, checksGrants, checksState, t, audience)
      ensures verdict.Revoked? <==>
        Admissible(t, audience) && !Accepts(database.tables, checksGrants, checksState, t, audience)
      ensures verdict.Accepted? ==>
        && t.claims.audience == [audience] && t.claims.expiresAt.Some? && t.claims.issuedAt.Some?
        && 0 < t.claims.expiresAt.value - t.claims.issuedAt.value <= 300
        && t.claims.subject == (if t.claims.actorType == "consumer" then "consumer:" + t.claims.consumerPrincipal
                                else if t.claims.actorType == "system" then "system:account-center"
                                else "user:" + t.claims.ownerUserRef)
        && t.claims.actorType in {"consumer", "system", "user", "admin"}
      ensures verdict.Accepted? && t.claims.actorType == "consumer" && checksState ==>
        && t.claims.binding in database.tables.generations
        && t.claims.versions.generation == database.tables.generations[t.claims.binding]
      ensures verdict.Accepted? ==>
        verdict.scopes == if |t.claims.allowedActions| > 0 then t.claims.allowedActions else t.claims.scopes
    {
      var refusal := CheckCommon(t.claims, audience);
      if refusal.Some? { return refusal.value; }
      if t.claims.actorType == "consumer" { refusal := CheckConsumer(t); } else { refusal := CheckControl(t); }
      if refusal.Some? { return refusal.value; }
      var actions := t.claims.scopes;
      if |t.claims.allowedActions| > 0 { actions := t.claims.allowedActions; }
      verdict := Accepted(actions);
    }
  }

  /** Exactly the tickets a verifier with these lookups lets through. */
  predicate Accepts(tables: Tables, checksGrants: bool, checksState: bool, t: Ticket, audience: string) {
    && Admissible(t, audience)
    && (t.claims.actorType == "consumer" ==>
          && (checksGrants ==> GrantCurrent(tables, t.claims))
          && (checksState ==> CurrentAndClear(tables, t.claims)))
  }

  // ---------- The tables over time ----------

  datatype Event =
    | ApplyFence(binding: string, consumer: string, fence: Fence, pre: nat)
    | SetGeneration(binding: string, generation: nat)
    | DropCredential(binding: string)

  predicate CanApplyFence(tables: Tables, binding: string, consumer: string, fence: Fence, pre: nat) {
    consumer != "" && fence.grant != 0 && binding in tables.generations && tables.generations[binding] == pre
  }

  function After(tables: Tables, e: Event): Tables {
    match e
    case ApplyFence(binding, consumer, fence, pre) =>
      if CanApplyFence(tables, binding, consumer, fence, pre) then
        var scope := (binding, consumer);
        tables.(fences := tables.fences[scope := Join(StoredFence(tables, scope), fence)],
                minimums := tables.minimums[scope := Max(StoredMinimum(tables, scope), fence.grant)])
      else tables
    case SetGeneration(binding, generation) => tables.(generations := tables.generations[binding := generation])
    case DropCredential(binding) => tables.(generations := tables.generations - {binding})
  }

  function AfterAll(tables: Tables, events: seq<Event>): Tables
    decreases |events|
  {
    if |events| == 0 then tables else AfterAll(After(tables, events[0]), events[1..])
  }

  /** The fences that were applied to one scope, in order. */
  function Applied(tables: Tables, events: seq<Event>, scope: Scope): seq<Fence>
    decreases |events|
  {
    if |events| == 0 then []
    else
      var e := events[0];
      var rest := Applied(After(tables, e), events[1..], scope);
      if e.ApplyFence? && (e.binding, e.consumer) == scope && CanApplyFence(tables, e.binding, e.consumer, e.fence, e.pre)
      then [e.fence] + rest else rest
  }

  function JoinAll(start: Fence, fences: seq<Fence>): Fence
    decreases |fences|
  {
    if |fences| == 0 then start else JoinAll(Join(start, fences[0]), fences[1..])
  }

  lemma {:induction false} JoinAllIsLeastUpperBound(start: Fence, fences: seq<Fence>)
    ensures Leq(start, JoinAll(start, fences))
    ensures forall i :: 0 <= i < |fences| ==> Leq(fences[i], JoinAll(start, fences))
    ensures forall h :: Leq(start, h) && (forall i :: 0 <= i < |fences| ==> Leq(fences[i], h)) ==> Leq(JoinAll(start, fences), h)
    decreases |fences|
  {
    if |fences| > 0 {
      JoinAllIsLeastUpperBound(Join(start, fences[0]), fences[1..]);
      forall i | 0 <= i < |fences| ensures Leq(fences[i], JoinAll(start, fences)) {
        if i > 0 { assert fences[i] == fences[1..][i - 1]; }
      }
    }
  }

  lemma {:induction false} StoredFenceIsJoinOfApplied(tables: Tables, events: seq<Event>, scope: Scope)
    ensures StoredFence(AfterAll(tables, events), scope) == JoinAll(StoredFence(tables, scope), Applied(tables, events, scope))
    decreases |events|
  {
    if |events| > 0 {
      var next := After(tables, events[0]);
      StoredFenceIsJoinOfApplied(next, events[1..], scope);
      var rest := Applied(next, events[1..], scope);
      if Applied(tables, events, scope) != rest { assert Applied(tables, events, scope)[1..] == rest; }
    }
  }

  /** The stored fence depends only on which fences were applied: not on their order, not on repetitions. */
  lemma FenceIsOrderFree(xs: seq<Event>, ys: seq<Event>, scope: Scope)
    requires forall f :: f in Applied(EMPTY_TABLES, xs, scope) <==> f in Applied(EMPTY_TABLES, ys, scope)
    ensures StoredFence(AfterAll(EMPTY_TABLES, xs), scope) == StoredFence(AfterAll(EMPTY_TABLES, ys), scope)
  {
    var fs, gs := Applied(EMPTY_TABLES, xs, scope), Applied(EMPTY_TABLES, ys, scope);
    StoredFenceIsJoinOfApplied(EMPTY_TABLES, xs, scope);
    StoredFenceIsJoinOfApplied(EMPTY_TABLES, ys, scope);
    JoinAllIsLeastUpperBound(OPEN_FENCE, fs);
    JoinAllIsLeastUpperBound(OPEN_FENCE, gs);
    forall i | 0 <= i < |fs| ensures Leq(fs[i], JoinAll(OPEN_FENCE, gs)) { assert fs[i] in gs; }
    forall i | 0 <= i < |gs| ensures Leq(gs[i], JoinAll(OPEN_FENCE, fs)) { assert gs[i] in fs; }
  }

  /** The fence of a scope only rises, whatever happens to the credential row. */
  lemma {:induction false} FenceOnlyRises(tables: Tables, events: seq<Event>, scope: Scope)
    ensures Leq(StoredFence(tables, scope), StoredFence(AfterAll(tables, events), scope))
    decreases |events|
  {
    if |events| > 0 { FenceOnlyRises(After(tables, events[0]), events[1..], scope); }
  }

  /** A ticket below the stored fence is refused now and after any later events, deletes and rebinds included. */
  lemma RefusalIsPermanent(tables: Tables, events: seq<Event>, checksGrants: bool, t: Ticket, audience: string)
    requires t.claims.actorType == "consumer" && !Clears(t.claims.versions, StoredFence(tables, ScopeOf(t.claims)))
    ensures !Accepts(AfterAll(tables, events), checksGrants, true, t, audience)
  {
    FenceOnlyRises(tables, events, ScopeOf(t.claims));
  }

  /** Verification is antitone: at the same credential rows, a higher pair of records accepts no more. */
  lemma VerificationIsAntitone(low: Tables, high: Tables, checksGrants: bool, checksState: bool, t: Ticket, audience: string)
    requires low.generations == high.generations
    requires forall s :: Leq(StoredFence(low, s), StoredFence(high, s)) && StoredMinimum(low, s) <= StoredMinimum(high, s)
    requires Accepts(high, checksGrants, checksState, t, audience)
    ensures Accepts(low, checksGrants, checksState, t, audience)
  {
    assert Leq(StoredFence(low, ScopeOf(t.claims)), StoredFence(high, ScopeOf(t.claims)));
  }

  /** Generation 0 is barred, so a consumer ticket for a binding without a credential row never passes. */
  lemma NoCredentialNoConsumer(tables: Tables, checksGrants: bool, t: Ticket, audience: string)
    requires t.claims.actorType == "consumer" && t.claims.binding !in tables.generations
    ensures !Accepts(tables, checksGrants, true, t, audience)
  {
  }

  /**
   An admissible consumer ticket passes both lookups exactly when it names the generation its credential row has now
   and is at or above the minimum and every component of the stored fence.
   */
  lemma ConsumerPassesExactly(tables: Tables, t: Ticket, audience: string)
    requires Admissible(t, audience) && t.claims.actorType == "consumer"
    ensures var (c, scope) := (t.claims, (t.claims.binding, t.claims.consumer));
      Accepts(tables, true, true, t, audience) <==>
        && c.binding in tables.generations && c.versions.generation == tables.generations[c.binding]
        && (scope in tables.minimums ==> c.versions.grant >= tables.minimums[scope])
        && (scope in tables.fences ==>
              && c.versions.grant >= tables.fences[scope].grant && c.versions.owner >= tables.fences[scope].owner
              && c.versions.consumer >= tables.fences[scope].consumer && c.versions.entry >= tables.fences[scope].entry)
  {
  }

  /** The event writes or drops the credential row of the binding. */
  predicate WritesGeneration(e: Event, binding: string) {
    (e.SetGeneration? || e.DropCredential?) && e.binding == binding
  }

  lemma {:induction false} GenerationStands(tables: Tables, events: seq<Event>, binding: string)
    requires forall e :: e in events ==> !WritesGeneration(e, binding)
    ensures binding in AfterAll(tables, events).generations <==> binding in tables.generations
    ensures binding in tables.generations ==> AfterAll(tables, events).generations[binding] == tables.generations[binding]
    decreases |events|
  {
    if |events| > 0 {
      assert events[0] in events;
      assert forall e :: e in events[1..] ==> e in events;
      GenerationStands(After(tables, events[0]), events[1..], binding);
    }
  }

  /**
   From one write of the credential row to the next, a consumer ticket passes exactly if it is admissible, names the
   generation that was written, and clears both records as they stand by then; after a delete none passes.
   */
  lemma OnlyTheStoredGenerationPasses(tables: Tables, e: Event, events: seq<Event>, t: Ticket, audience: string)
    requires t.claims.actorType == "consumer" && WritesGeneration(e, t.claims.binding)
    requires forall later :: later in events ==> !WritesGeneration(later, t.claims.binding)
    ensures var after := AfterAll(After(tables, e), events);
      Accepts(after, true, true, t, audience) <==>
        && Admissible(t, audience) && e.SetGeneration? && t.claims.versions.generation == e.generation
        && GrantCurrent(after, t.claims) && Clears(t.claims.versions, StoredFence(after, ScopeOf(t.claims)))
  {
    GenerationStands(After(tables, e), events, t.claims.binding);
  }

  ghost predicate RecordsAgree(tables: Tables) {
    forall s :: (s in tables.fences <==> s in tables.minimums) && StoredMinimum(tables, s) == StoredFence(tables, s).grant
  }

  /** Written only by ApplyAuthorizationFence, the two revocation records say the same for every consumer. */
  lemma {:induction false} TwoRecordsAgree(tables: Tables, events: seq<Event>)
    requires RecordsAgree(tables)
    ensures RecordsAgree(AfterAll(tables, events))
    decreases |events|
  {
    if |events| > 0 {
      assert RecordsAgree(After(tables, events[0]));
      TwoRecordsAgree(After(tables, events[0]), events[1..]);
    }
  }

  /** While the records agree, the separate grant lookup never changes the verdict. */
  lemma GrantLookupIsRedundant(events: seq<Event>, t: Ticket, audience: string)
    ensures var tables := AfterAll(EMPTY_TABLES, events);
      Accepts(tables, true, true, t, audience) <==> Accepts(tables, false, true, t, audience)
  {
    TwoRecordsAgree(EMPTY_TABLES, events);
    var tables := AfterAll(EMPTY_TABLES, events);
    assert StoredMinimum(tables, ScopeOf(t.claims)) == StoredFence(tables, ScopeOf(t.claims)).grant;
  }

}
