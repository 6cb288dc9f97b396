/**
 Seeding Account Center's Casbin policies: the rules of the built-in roles, and the reconciliation of
 the policy store with them.
 */
module SeedPolicies {
  import opened TextOrder

  datatype Rule = Rule(path: string, verb: string)
  datatype Policy = Policy(sub: string, obj: string, act: string)
  datatype Option<T> = None | Some(value: T)

  // ---------- The catalog ----------

  /** The rules without repetitions, each where it first occurred. */
  function FirstOccurrences(rules: seq<Rule>): (r: seq<Rule>)
    decreases |rules|
  {
    if |rules| == 0 then []
    else
      var front, last := rules[..|rules| - 1], rules[|rules| - 1];
      if last in front then FirstOccurrences(front) else FirstOccurrences(front) + [last]
  }

  predicate Distinct<T(==)>(s: seq<T>) {
    forall i, j :: 0 <= i < j < |s| ==> s[i] != s[j]
  }

  lemma {:induction false} FirstOccurrencesAreTheRules(rules: seq<Rule>)
    ensures forall r :: r in FirstOccurrences(rules) <==> r in rules
    ensures Distinct(FirstOccurrences(rules))
    decreases |rules|
  {
    if |rules| > 0 {
      FirstOccurrencesAreTheRules(rules[..|rules| - 1]);
      assert rules == rules[..|rules| - 1] + [rules[|rules| - 1]];
    }
  }

  /** A list without repetitions is left as it is, order included. */
  lemma {:induction false} DistinctIsKept(rules: seq<Rule>)
    requires Distinct(rules)
    ensures FirstOccurrences(rules) == rules
    decreases |rules|
  {
    if |rules| > 0 {
      DistinctIsKept(rules[..|rules| - 1]);
      assert rules == rules[..|rules| - 1] + [rules[|rules| - 1]];
    }
  }

  /** uniquePolicyRules. */
  method UniquePolicyRules(rules: seq<Rule>) returns (unique: seq<Rule>)
    ensures unique == FirstOccurrences(rules)
  {
    var seen: set<Rule> := {};
    unique := [];
    for i := 0 to |rules|
      invariant seen == set r | r in rules[..i]
      invariant unique == FirstOccurrences(rules[..i])
    {
      assert rules[..i + 1] == rules[..i] + [rules[i]];
      assert rules[..i + 1][..i] == rules[..i];
      if rules[i] !in seen {
        seen := seen + {rules[i]};
        unique := unique + [rules[i]];
      }
    }
    assert rules[..|rules|] == rules;
  }

  /** The tables of policy_catalog.go. */
  datatype Catalog = Catalog(
    permissionPolicies: map<string, seq<Rule>>,
    systemRolePermissions: map<string, seq<string>>,
    adminRole: string,
    adminOnly: seq<Rule>)

  predicate Granted(c: Catalog, role: string, rule: Rule) {
    role in c.systemRolePermissions &&
    ((exists i :: 0 <= i < |c.systemRolePermissions[role]| && GrantedBy(c, c.systemRolePermissions[role][i], rule))
     || (role == c.adminRole && rule in c.adminOnly))
  }

  predicate GrantedBy(c: Catalog, permission: string, rule: Rule) {
    permission in c.permissionPolicies && rule in c.permissionPolicies[permission]
  }

  /** PoliciesForSystemRole: exactly the granted rules, once each; nothing for an unknown role. */
  method PoliciesForSystemRole(c: Catalog, role: string) returns (rules: Option<seq<Rule>>)
    ensures rules.None? <==> role !in c.systemRolePermissions
    ensures rules.Some? ==> Distinct(rules.value) && forall r :: r in rules.value <==> Granted(c, role, r)
  {
    if role !in c.systemRolePermissions { return None; }
    var permissions := c.systemRolePermissions[role];
    var all: seq<Rule> := [];
    for i := 0 to |permissions|
      invariant forall r :: r in all <==> exists j :: 0 <= j < i && GrantedBy(c, permissions[j], r)
    {
      if permissions[i] in c.permissionPolicies { all := all + c.permissionPolicies[permissions[i]]; }
    }
    if role == c.adminRole { all := all + c.adminOnly; }
    FirstOccurrencesAreTheRules(all);
    var unique := UniquePolicyRules(all);
    rules := Some(unique);
  }

  // ---------- Policy keys ----------

  const NUL := '\0'

  function PolicyKey(p: Policy): string {
    p.sub + [NUL] + p.obj + [NUL] + p.act
  }

  predicate NulFree(p: Policy) {
    NUL !in p.sub && NUL !in p.obj && NUL !in p.act
  }

  /** Two texts with a separator that the first parts do not contain split in the same way. */
  lemma {:induction false} SplitsOnce(a: string, x: string, b: string, y: string)
    requires NUL !in a && NUL !in b && a + [NUL] + x == b + [NUL] + y
    ensures a == b && x == y
    decreases |a|
  {
    var s, t := a + [NUL] + x, b + [NUL] + y;
    assert s[0] == if |a| == 0 then NUL else a[0];
    assert t[0] == if |b| == 0 then NUL else b[0];
    if |a| == 0 {
      assert s[1..] == x && t[1..] == y;
    } else {
      assert a[0] in a;
      assert s[1..] == a[1..] + [NUL] + x && t[1..] == b[1..] + [NUL] + y;
      SplitsOnce(a[1..], x, b[1..], y);
      assert a == [a[0]] + a[1..] && b == [b[0]] + b[1..];
    }
  }

  function Nuls(s: string): nat {
    if |s| == 0 then 0 else (if s[0] == NUL then 1 else 0) + Nuls(s[1..])
  }

  lemma {:induction false} NulsOfBoth(a: string, b: string)
    ensures Nuls(a + b) == Nuls(a) + Nuls(b)
    decreases |a|
  {
    if |a| == 0 {
      assert a + b == b;
    } else {
      assert (a + b)[1..] == a[1..] + b;
      NulsOfBoth(a[1..], b);
    }
  }

  lemma {:induction false} NoNulsExactlyWithout(s: string)
    ensures Nuls(s) == 0 <==> NUL !in s
    decreases |s|
  {
    if |s| > 0 {
      NoNulsExactlyWithout(s[1..]);
      assert s == [s[0]] + s[1..];
    }
  }

  /** A key holds two separators besides the NUL bytes of its parts. */
  lemma NulsOfKey(p: Policy)
    ensures Nuls(PolicyKey(p)) == Nuls(p.sub) + Nuls(p.obj) + Nuls(p.act) + 2
  {
    NulsOfBoth(p.sub + [NUL] + p.obj + [NUL], p.act);
    NulsOfBoth(p.sub + [NUL] + p.obj, [NUL]);
    NulsOfBoth(p.sub + [NUL], p.obj);
    NulsOfBoth(p.sub, [NUL]);
  }

  lemma SharedKeyIsNulFree(p: Policy, q: Policy)
    requires NulFree(q) && PolicyKey(p) == PolicyKey(q)
    ensures NulFree(p)
  {
    NulsOfKey(p);
    NulsOfKey(q);
    NoNulsExactlyWithout(p.sub);
    NoNulsExactlyWithout(p.obj);
    NoNulsExactlyWithout(p.act);
    NoNulsExactlyWithout(q.sub);
    NoNulsExactlyWithout(q.obj);
    NoNulsExactlyWithout(q.act);
  }

  /** It is enough that one of the two policies holds no NUL byte. */
  lemma PolicyKeyInjective(p: Policy, q: Policy)
    requires NulFree(q) && PolicyKey(p) == PolicyKey(q)
    ensures p == q
  {
    SharedKeyIsNulFree(p, q);
    assert PolicyKey(p) == p.sub + [NUL] + (p.obj + [NUL] + p.act);
    assert PolicyKey(q) == q.sub + [NUL] + (q.obj + [NUL] + q.act);
    SplitsOnce(p.sub, p.obj + [NUL] + p.act, q.sub, q.obj + [NUL] + q.act);
    SplitsOnce(p.obj, p.act, q.obj, q.act);
  }

  /** Of policyKey alone: it can confuse two policies of which both hold NUL bytes. */
  lemma NulBytesCollide()
    ensures var p := Policy("7", "/a", "GET" + [NUL] + "x"); var q := Policy("7", "/a" + [NUL] + "GET", "x");
      PolicyKey(p) == PolicyKey(q) && p != q && !NulFree(p) && !NulFree(q)
  {
    var p := Policy("7", "/a", "GET" + [NUL] + "x");
    var q := Policy("7", "/a" + [NUL] + "GET", "x");
    assert PolicyKey(p) == PolicyKey(q) == "7" + [NUL] + "/a" + [NUL] + "GET" + [NUL] + "x";
    assert |p.obj| == 2 && |q.obj| == 6;
    assert p.act[3] == NUL && q.obj[2] == NUL;
  }

  // ---------- Reconciliation ----------

  type Store = set<Policy>
  type Desired = map<string, seq<Policy>>

  /** buildSeedPolicies puts the role into every policy. */
  predicate Built(desired: Desired) {
    forall role :: role in desired ==> forall p :: p in desired[role] ==> p.sub == role
  }

  predicate KeyDesired(policies: seq<Policy>, key: string) {
    exists p :: p in policies && PolicyKey(p) == key
  }

  predicate Wanted(desired: Desired, p: Policy) {
    p.sub in desired && p in desired[p.sub]
  }

  lemma WantedHasKey(desired: Desired, p: Policy)
    ensures Wanted(desired, p) ==> KeyDesired(desired[p.sub], PolicyKey(p))
  {
  }

  /** What reconcileSeedPolicies removes: policies of a seeded role whose key is not desired. */
  predicate Obsolete(desired: Desired, p: Policy) {
    p.sub in desired && !KeyDesired(desired[p.sub], PolicyKey(p))
  }

  function Elems(policies: seq<Policy>): Store {
    set p | p in policies
  }

  function WantedOf(desired: Desired): Store
  {
    set role, i | role in desired && 0 <= i < |desired[role]| :: desired[role][i]
  }

  lemma WantedOfIs(desired: Desired, p: Policy)
    requires Built(desired)
    ensures p in WantedOf(desired) <==> Wanted(desired, p)
  {
    if Wanted(desired, p) {
      var i :| 0 <= i < |desired[p.sub]| && desired[p.sub][i] == p;
    }
  }

  function Reconciled(store: Store, desired: Desired): Store {
    (set p | p in store && !Obsolete(desired, p)) + WantedOf(desired)
  }

  function RemovedFrom(store: Store, desired: Desired): Store {
    set p | p in store && Obsolete(desired, p)
  }

  function AddedTo(store: Store, desired: Desired): Store {
    WantedOf(desired) - store
  }

  function OfRole(store: Store, role: string): Store {
    set p | p in store && p.sub == role
  }

  /** A policy that is not desired but has the key of one that is. */
  predicate Impostor(desired: Desired, p: Policy) {
    p.sub in desired && !Wanted(desired, p) && KeyDesired(desired[p.sub], PolicyKey(p))
  }

  /** Each seeded role ends with exactly its desired set if and only if the store held no impostor of it. */
  lemma ReconciledExactly(store: Store, desired: Desired, role: string)
    requires Built(desired) && role in desired
    ensures OfRole(Reconciled(store, desired), role) == Elems(desired[role]) <==>
      forall p :: p in store && p.sub == role ==> !Impostor(desired, p)
  {
    var result := Reconciled(store, desired);
    forall p ensures p in WantedOf(desired) <==> Wanted(desired, p) { WantedOfIs(desired, p); }
    if OfRole(result, role) == Elems(desired[role]) {
      forall p | p in store && p.sub == role ensures !Impostor(desired, p) {
        assert !Obsolete(desired, p) ==> p in OfRole(result, role);
      }
    } else {
      assert forall p :: p in desired[role] ==> p in OfRole(result, role);
      var p :| p in OfRole(result, role) && p !in desired[role];
      assert p in store && Impostor(desired, p);
    }
  }

  /** When the desired policies hold no NUL byte, no policy whatever is an impostor. */
  lemma NulFreeHasNoImpostor(desired: Desired, p: Policy)
    requires p.sub in desired && forall q :: q in desired[p.sub] ==> NulFree(q)
    ensures !Impostor(desired, p)
  {
    if KeyDesired(desired[p.sub], PolicyKey(p)) {
      var q :| q in desired[p.sub] && PolicyKey(q) == PolicyKey(p);
      PolicyKeyInjective(p, q);
    }
  }

  /** buildSeedPolicies. */
  method BuildSeedPolicies(role: string, rules: seq<Rule>) returns (policies: seq<Policy>)
    ensures policies == PoliciesOf(role, rules)
  {
    policies := [];
    for i := 0 to |rules|
      invariant policies == PoliciesOf(role, rules[..i])
    {
      assert rules[..i + 1][..i] == rules[..i];
      policies := policies + [Policy(role, rules[i].path, rules[i].verb)];
    }
    assert rules[..|rules|] == rules;
  }

  function PoliciesOf(role: string, rules: seq<Rule>): seq<Policy> {
    seq(|rules|, i requires 0 <= i < |rules| => Policy(role, rules[i].path, rules[i].verb))
  }

  predicate NulFreeRules(rules: seq<Rule>) {
    forall r :: r in rules ==> NUL !in r.path && NUL !in r.verb
  }

  /**
   Seeding as the service runs it: the desired policies are built from a catalog and a numeric role
   identifier, which hold no NUL byte. Then any store, whatever it holds, ends with exactly the catalog's
   policies for the role.
   */
  lemma SeedingConverges(store: Store, desired: Desired, role: string, rules: seq<Rule>)
    requires Built(desired) && role in desired && desired[role] == PoliciesOf(role, rules)
    requires NUL !in role && NulFreeRules(rules)
    ensures OfRole(Reconciled(store, desired), role) == set r | r in rules :: Policy(role, r.path, r.verb)
  {
    var policies := desired[role];
    forall q | q in policies ensures NulFree(q) {
      var i :| 0 <= i < |policies| && policies[i] == q;
      assert rules[i] in rules;
    }
    forall p | p in store && p.sub == role ensures !Impostor(desired, p) { NulFreeHasNoImpostor(desired, p); }
    ReconciledExactly(store, desired, role);
    forall r | r in rules ensures Policy(role, r.path, r.verb) in policies {
      var i :| 0 <= i < |rules| && rules[i] == r;
      assert policies[i] == Policy(role, r.path, r.verb);
    }
    forall p | p in policies ensures p in set r | r in rules :: Policy(role, r.path, r.verb) {
      var i :| 0 <= i < |policies| && policies[i] == p;
      assert rules[i] in rules;
    }
  }

  lemma OtherRolesUntouched(store: Store, desired: Desired, p: Policy)
    requires Built(desired) && p.sub !in desired
    ensures p in Reconciled(store, desired) <==> p in store
  {
    WantedOfIs(desired, p);
  }

  /** A second run changes nothing and counts nothing. */
  lemma SecondRunIsIdle(store: Store, desired: Desired)
    requires Built(desired)
    ensures var once := Reconciled(store, desired);
      && Reconciled(once, desired) == once
      && RemovedFrom(once, desired) == {} && AddedTo(once, desired) == {}
  {
    var once := Reconciled(store, desired);
    forall p | p in once ensures !Obsolete(desired, p) {
      WantedOfIs(desired, p);
      WantedHasKey(desired, p);
    }
  }

  /** The two counts add up to the symmetric difference of the store before and after. */
  lemma CountsAreTheDifference(store: Store, desired: Desired)
    requires Built(desired)
    ensures var after := Reconciled(store, desired);
      RemovedFrom(store, desired) == store - after && AddedTo(store, desired) == after - store
  {
    var after := Reconciled(store, desired);
    forall p ensures p in WantedOf(desired) <==> Wanted(desired, p) { WantedOfIs(desired, p); }
    forall p | p in store && Obsolete(desired, p) ensures p !in after {
      WantedHasKey(desired, p);
    }
  }

  class Enforcer {
    var store: Store
    /** How many calls of the store have failed. */
    var faults: nat

    constructor(store: Store)
      ensures this.store == store && faults == 0
    {
      this.store, faults := store, 0;
    }

    /** Whether a call of the store fails. */
    method Fails() returns (err: bool)
      modifies this`faults
      ensures faults == old(faults) + if err then 1 else 0
    {
      err :| true;
      if err { faults := faults + 1; }
    }

    method RemovePolicy(p: Policy) returns (removed: bool, err: bool)
      modifies this
      ensures err ==> !removed && store == old(store)
      ensures !err ==> store == old(store) - {p} && (removed <==> p in old(store))
      ensures faults == old(faults) + if err then 1 else 0
    {
      err := Fails();
      removed := !err && p in store;
      if removed { store := store - {p}; }
    }

    method AddPolicy(p: Policy) returns (added: bool, err: bool)
      modifies this
      ensures err ==> !added && store == old(store)
      ensures !err ==> store == old(store) + {p} && (added <==> p !in old(store))
      ensures faults == old(faults) + if err then 1 else 0
    {
      err := Fails();
      added := !err && p !in store;
      if added { store := store + {p}; }
    }

    /** The removing loop of one role. */
    method RemoveObsolete(role: string, desired: seq<Policy>) returns (count: nat, err: bool)
      modifies this
      ensures !err ==> store == old(store) - ObsoleteOf(old(store), role, desired)
      ensures err ==> old(store) - ObsoleteOf(old(store), role, desired) <= store <= old(store)
      ensures count == |old(store) - store| && faults == old(faults) + if err then 1 else 0
    {
      count := 0;
      var keys := KeysOf(desired);
      var rest := OfRole(store, role);
      ghost var before, unwanted := store, ObsoleteOf(store, role, desired);
      NothingRemoved(before, role, desired);
      while rest != {}
        invariant rest <= OfRole(before, role) && faults == old(faults)
        invariant AllGoneBut(store, count, before, unwanted, rest)
        decreases |rest|
      {
        var existing :| existing in rest;
        IsUnwanted(before, role, desired, existing);
        if PolicyKey(existing) !in keys {
          count, err := RemoveOne(existing, count, before, unwanted, rest);
          if err { GoneIs(before, unwanted, rest); return; }
        } else {
          Kept(unwanted, rest, existing);
        }
        rest := rest - {existing};
      }
      GoneIs(before, unwanted, rest);
      err := false;
    }

    /** One removal of the loop, counted when the policy was there. */
    method RemoveOne(existing: Policy, count: nat, ghost before: Store, ghost unwanted: Store, ghost rest: Store)
      returns (more: nat, err: bool)
      requires existing in rest && existing in unwanted && unwanted <= before
      requires AllGoneBut(store, count, before, unwanted, rest)
      modifies this
      ensures faults == old(faults) + if err then 1 else 0
      ensures AllGoneBut(store, more, before, unwanted, if err then rest else rest - {existing})
    {
      OneMoreGone(before, unwanted, rest, existing);
      var removed;
      removed, err := RemovePolicy(existing);
      more := if removed then count + 1 else count;
    }

    /** The adding loop of one role. */
    method AddDesired(desired: seq<Policy>) returns (count: nat, err: bool)
      modifies this
      ensures !err ==> store == old(store) + Elems(desired)
      ensures err ==> old(store) <= store <= old(store) + Elems(desired)
      ensures count == |store - old(store)| && faults == old(faults) + if err then 1 else 0
    {
      count := 0;
      ghost var before := store;
      ghost var entered: Store := {};
      for i := 0 to |desired|
        invariant entered == Elems(desired[..i]) - before
        invariant store == before + entered && count == |entered| && faults == old(faults)
      {
        var added;
        added, err := AddPolicy(desired[i]);
        if err { FreshIs(before, entered); return; }
        ElemsAppend(desired, i);
        if added { count := count + 1; entered := entered + {desired[i]}; }
      }
      assert desired[..|desired|] == desired;
      FreshIs(before, entered);
      err := false;
    }

    /**
     reconcileSeedPolicies, the roles in any order. Whatever goes wrong, no desired policy is removed, and
     no policy of another role is touched.
     */
    method Reconcile(desired: Desired) returns (removed: nat, added: nat, ok: bool)
      requires Built(desired)
      modifies this
      ensures ok ==> store == Reconciled(old(store), desired)
      ensures ok ==> removed == |RemovedFrom(old(store), desired)| && added == |AddedTo(old(store), desired)|
      ensures old(store) - RemovedFrom(old(store), desired) <= store <= old(store) + WantedOf(desired)
      ensures faults == old(faults) + if ok then 0 else 1
    {
      removed, added := 0, 0;
      ghost var before := store;
      var roles := desired.Keys;
      NoRoleDone(before, desired);
      ghost var done: set<string> := {};
      while roles != {}
        invariant SplitInto(desired.Keys, roles, done) && faults == old(faults)
        invariant Reached(store, removed, added, before, desired, done)
        decreases |roles|
      {
        var role :| role in roles;
        MoveOver(desired.Keys, roles, done, role);
        removed, added, ok := ReconcileRole(role, desired, removed, added, before, done);
        if !ok { return; }
        roles, done := roles - {role}, done + {role};
      }
      AllRolesDone(before, desired);
      NothingLeft(desired.Keys, done);
      var err := Fails();
      ok := !err;
    }

    /** The two loops for one role, after those for the `done` roles. */
    method ReconcileRole(role: string, desired: Desired, removed: nat, added: nat, ghost start: Store, ghost done: set<string>)
      returns (removed': nat, added': nat, ok: bool)
      requires Built(desired) && role in desired && role !in done && Reached(store, removed, added, start, desired, done)
      modifies this
      ensures start - RemovedFrom(start, desired) <= store <= start + WantedOf(desired)
      ensures ok ==> Reached(store, removed', added', start, desired, done + {role})
      ensures faults == old(faults) + if ok then 0 else 1
    {
      PartlyWithin(start, desired, done, role);
      OneMoreRole(start, desired, done, role);
      var gone, err := RemoveObsolete(role, desired[role]);
      removed', added' := removed + gone, added;
      if err { return removed', added', false; }
      var entered;
      entered, err := AddDesired(desired[role]);
      added', ok := added + entered, !err;
    }
  }

  /** The `done` roles are reconciled, and the counts say by how many policies. */
  ghost predicate Reached(store: Store, removed: nat, added: nat, start: Store, desired: Desired, done: set<string>) {
    && store == PartlyReconciled(start, desired, done)
    && removed == |RemovedOf(start, desired, done)| && added == |AddedOf(start, desired, done)|
  }

  ghost predicate SplitInto(all: set<string>, todo: set<string>, done: set<string>) {
    forall r :: (r in all <==> r in todo || r in done) && !(r in todo && r in done)
  }

  lemma MoveOver(all: set<string>, todo: set<string>, done: set<string>, role: string)
    requires SplitInto(all, todo, done) && role in todo
    ensures SplitInto(all, todo - {role}, done + {role}) && role in all && role !in done
  {
  }

  lemma NothingLeft(all: set<string>, done: set<string>)
    requires SplitInto(all, {}, done)
    ensures done == all
  {
  }

  /** Of the unwanted policies all but the rest are gone, and counted. */
  ghost predicate AllGoneBut(store: Store, count: nat, before: Store, unwanted: Store, rest: Store) {
    store == before - (unwanted - rest) && count == |unwanted - rest|
  }

  lemma NothingRemoved(before: Store, role: string, desired: seq<Policy>)
    ensures ObsoleteOf(before, role, desired) <= before
    ensures AllGoneBut(before, 0, before, ObsoleteOf(before, role, desired), OfRole(before, role))
  {
    assert ObsoleteOf(before, role, desired) - OfRole(before, role) == {};
  }

  lemma GoneIs(before: Store, unwanted: Store, rest: Store)
    requires unwanted <= before
    ensures before - (before - (unwanted - rest)) == unwanted - rest
    ensures before - unwanted <= before - (unwanted - rest) <= before
    ensures rest == {} ==> unwanted - rest == unwanted
  {
  }

  lemma Kept(unwanted: Store, rest: Store, p: Policy)
    requires p !in unwanted
    ensures unwanted - (rest - {p}) == unwanted - rest
  {
  }

  lemma IsUnwanted(before: Store, role: string, desired: seq<Policy>, p: Policy)
    requires p in OfRole(before, role)
    ensures p in ObsoleteOf(before, role, desired) <==> PolicyKey(p) !in KeysOf(desired)
  {
  }

  function KeysOf(policies: seq<Policy>): set<string> {
    set p | p in policies :: PolicyKey(p)
  }

  lemma OneMoreGone(before: Store, unwanted: Store, rest: Store, p: Policy)
    requires unwanted <= before && p in unwanted && p in rest
    ensures p in before - (unwanted - rest)
    ensures before - (unwanted - rest) - {p} == before - (unwanted - (rest - {p}))
    ensures |unwanted - (rest - {p})| == |unwanted - rest| + 1
  {
    assert unwanted - (rest - {p}) == unwanted - rest + {p};
  }

  lemma FreshIs(before: Store, entered: Store)
    requires entered !! before
    ensures (before + entered) - before == entered
  {
  }

  lemma ElemsAppend(policies: seq<Policy>, i: nat)
    requires i < |policies|
    ensures Elems(policies[..i + 1]) == Elems(policies[..i]) + {policies[i]}
  {
    assert policies[..i + 1] == policies[..i] + [policies[i]];
  }

  lemma NoRoleDone(store: Store, desired: Desired)
    ensures PartlyReconciled(store, desired, {}) == store
    ensures RemovedOf(store, desired, {}) == {} && AddedOf(store, desired, {}) == {}
  {
  }

  lemma SizeOfUnion(a: Store, b: Store)
    requires a !! b
    ensures |a + b| == |a| + |b|
  {
  }

  function ObsoleteOf(store: Store, role: string, desired: seq<Policy>): Store {
    set p | p in store && p.sub == role && !KeyDesired(desired, PolicyKey(p))
  }

  function RemovedOf(store: Store, desired: Desired, roles: set<string>): Store {
    set p | p in store && p.sub in roles && Obsolete(desired, p)
  }

  function AddedOf(store: Store, desired: Desired, roles: set<string>): Store {
    set p | p in WantedOf(desired) && p.sub in roles && p !in store
  }

  function PartlyReconciled(store: Store, desired: Desired, roles: set<string>): Store {
    (store - RemovedOf(store, desired, roles)) + AddedOf(store, desired, roles)
  }

  /** What one role's two loops do to a store in which only the `done` roles are reconciled. */
  lemma RoleSets(store: Store, desired: Desired, done: set<string>, role: string)
    requires Built(desired) && role in desired && role !in done
    ensures var s := PartlyReconciled(store, desired, done); var gone := RemovedOf(store, desired, {role});
      && ObsoleteOf(s, role, desired[role]) == gone
      && s - (s - gone) == gone
      && RemovedOf(store, desired, done + {role}) == RemovedOf(store, desired, done) + gone
      && RemovedOf(store, desired, done) !! gone
  {
    forall p ensures p in WantedOf(desired) <==> Wanted(desired, p) { WantedOfIs(desired, p); }
  }

  lemma RoleAdds(store: Store, desired: Desired, done: set<string>, role: string)
    requires Built(desired) && role in desired && role !in done
    ensures var s1 := PartlyReconciled(store, desired, done) - RemovedOf(store, desired, {role});
      var entered := AddedOf(store, desired, {role});
      && (s1 + Elems(desired[role])) - s1 == entered
      && AddedOf(store, desired, done + {role}) == AddedOf(store, desired, done) + entered
      && AddedOf(store, desired, done) !! entered
  {
    forall p ensures p in WantedOf(desired) <==> Wanted(desired, p) { WantedOfIs(desired, p); }
    forall p | p in desired[role] ensures !Obsolete(desired, p) { WantedHasKey(desired, p); }
  }

  lemma RoleResult(store: Store, desired: Desired, done: set<string>, role: string)
    requires Built(desired) && role in desired && role !in done
    ensures PartlyReconciled(store, desired, done) - RemovedOf(store, desired, {role}) + Elems(desired[role])
         == PartlyReconciled(store, desired, done + {role})
  {
    forall p ensures p in WantedOf(desired) <==> Wanted(desired, p) { WantedOfIs(desired, p); }
    forall p | p in desired[role] ensures !Obsolete(desired, p) { WantedHasKey(desired, p); }
  }

  lemma OneMoreRole(store: Store, desired: Desired, done: set<string>, role: string)
    requires Built(desired) && role in desired && role !in done
    ensures var s := PartlyReconciled(store, desired, done); var s1 := s - ObsoleteOf(s, role, desired[role]);
      var s2 := s1 + Elems(desired[role]);
      && s2 == PartlyReconciled(store, desired, done + {role})
      && |RemovedOf(store, desired, done + {role})| == |RemovedOf(store, desired, done)| + |s - s1|
      && |AddedOf(store, desired, done + {role})| == |AddedOf(store, desired, done)| + |s2 - s1|
  {
    RoleSets(store, desired, done, role);
    RoleAdds(store, desired, done, role);
    RoleResult(store, desired, done, role);
    SizeOfUnion(RemovedOf(store, desired, done), RemovedOf(store, desired, {role}));
    SizeOfUnion(AddedOf(store, desired, done), AddedOf(store, desired, {role}));
  }

  /** Halfway, and halfway through a role, the store stays between what is kept for sure and what is wanted at most. */
  lemma PartlyWithin(store: Store, desired: Desired, done: set<string>, role: string)
    requires Built(desired) && role in desired
    ensures var s := PartlyReconciled(store, desired, done);
      && store - RemovedFrom(store, desired) <= s - ObsoleteOf(s, role, desired[role])
      && s + Elems(desired[role]) <= store + WantedOf(desired)
  {
    forall p ensures p in WantedOf(desired) <==> Wanted(desired, p) { WantedOfIs(desired, p); }
  }

  lemma AllRolesDone(store: Store, desired: Desired)
    requires Built(desired)
    ensures PartlyReconciled(store, desired, desired.Keys) == Reconciled(store, desired)
    ensures RemovedOf(store, desired, desired.Keys) == RemovedFrom(store, desired)
    ensures AddedOf(store, desired, desired.Keys) == AddedTo(store, desired)
    ensures store - RemovedFrom(store, desired) <= Reconciled(store, desired) <= store + WantedOf(desired)
  {
    forall p ensures p in WantedOf(desired) <==> Wanted(desired, p) { WantedOfIs(desired, p); }
    forall p | p in store && Obsolete(desired, p) ensures p !in WantedOf(desired) {
      WantedHasKey(desired, p);
    }
  }

  // ---------- diffPolicies ----------

  /** Every policy of the list under its key; a later one replaces an earlier one of the same key. */
  predicate Indexes(keyed: map<string, Policy>, policies: seq<Policy>) {
    && (forall key :: key in keyed ==> keyed[key] in policies && PolicyKey(keyed[key]) == key)
    && (forall p :: p in policies ==> PolicyKey(p) in keyed)
  }

  method ByKey(policies: seq<Policy>) returns (keyed: map<string, Policy>)
    ensures Indexes(keyed, policies)
  {
    keyed := map[];
    for i := 0 to |policies|
      invariant Indexes(keyed, policies[..i])
    {
      assert policies[..i + 1] == policies[..i] + [policies[i]];
      keyed := keyed[PolicyKey(policies[i]) := policies[i]];
    }
    assert policies[..|policies|] == policies;
  }

  /** No policy twice, and no two with the same key. */
  ghost predicate OneForEachKey(policies: seq<Policy>) {
    && (forall p :: multiset(policies)[p] <= 1)
    && (forall p, q :: p in policies && q in policies && PolicyKey(p) == PolicyKey(q) ==> p == q)
  }

  /** One policy for each key of `from` that `against` does not have. */
  ghost predicate IsDifference(result: seq<Policy>, from: seq<Policy>, against: seq<Policy>) {
    && (forall p :: p in result ==> p in from && !KeyDesired(against, PolicyKey(p)))
    && (forall p :: p in from && !KeyDesired(against, PolicyKey(p)) ==> KeyDesired(result, PolicyKey(p)))
    && OneForEachKey(result)
  }

  /** The state of the loop of Unmatched: the keys outside `rest` are dealt with. */
  ghost predicate PartlyUnmatched(result: seq<Policy>, fromKeys: map<string, Policy>, againstKeys: map<string, Policy>,
                                  rest: set<string>) {
    && (forall p :: p in result ==>
          PolicyKey(p) in fromKeys && fromKeys[PolicyKey(p)] == p && PolicyKey(p) !in againstKeys && PolicyKey(p) !in rest)
    && (forall key :: key in fromKeys && key !in rest && key !in againstKeys ==> fromKeys[key] in result)
    && OneForEachKey(result)
  }

  lemma OneMoreUnmatched(result: seq<Policy>, fromKeys: map<string, Policy>, againstKeys: map<string, Policy>,
                         rest: set<string>, key: string)
    requires PartlyUnmatched(result, fromKeys, againstKeys, rest) && key in rest && key in fromKeys
    requires PolicyKey(fromKeys[key]) == key
    ensures PartlyUnmatched(if key in againstKeys then result else result + [fromKeys[key]], fromKeys, againstKeys, rest - {key})
  {
    forall p | p in result ensures PolicyKey(p) != key { }
    assert fromKeys[key] !in multiset(result);
  }

  lemma AllUnmatched(result: seq<Policy>, fromKeys: map<string, Policy>, againstKeys: map<string, Policy>,
                     from: seq<Policy>, against: seq<Policy>)
    requires Indexes(fromKeys, from) && Indexes(againstKeys, against) && PartlyUnmatched(result, fromKeys, againstKeys, {})
    ensures IsDifference(result, from, against)
  {
    forall p | p in from && !KeyDesired(against, PolicyKey(p)) ensures KeyDesired(result, PolicyKey(p)) {
      var key := PolicyKey(p);
      assert key !in againstKeys;
      assert fromKeys[key] in result;
    }
  }

  method Unmatched(from: seq<Policy>, against: seq<Policy>) returns (result: seq<Policy>)
    ensures IsDifference(result, from, against)
  {
    var fromKeys := ByKey(from);
    var againstKeys := ByKey(against);
    var rest := fromKeys.Keys;
    result := [];
    while rest != {}
      invariant rest <= fromKeys.Keys && PartlyUnmatched(result, fromKeys, againstKeys, rest)
      decreases |rest|
    {
      var key :| key in rest;
      OneMoreUnmatched(result, fromKeys, againstKeys, rest, key);
      rest := rest - {key};
      if key !in againstKeys { result := result + [fromKeys[key]]; }
    }
    AllUnmatched(result, fromKeys, againstKeys, from, against);
  }

  /** Strictly ascending by key. */
  predicate Ascending(policies: seq<Policy>) {
    forall i, j :: 0 <= i < j < |policies| ==> Less(PolicyKey(policies[i]), PolicyKey(policies[j]))
  }

  function Insert(p: Policy, sorted: seq<Policy>): seq<Policy>
    decreases |sorted|
  {
    if |sorted| > 0 && Less(PolicyKey(sorted[0]), PolicyKey(p)) then [sorted[0]] + Insert(p, sorted[1..]) else [p] + sorted
  }

  lemma {:induction false} InsertKeeps(p: Policy, sorted: seq<Policy>)
    ensures multiset(Insert(p, sorted)) == multiset(sorted) + multiset{p}
    decreases |sorted|
  {
    if |sorted| > 0 && Less(PolicyKey(sorted[0]), PolicyKey(p)) {
      InsertKeeps(p, sorted[1..]);
      assert sorted == [sorted[0]] + sorted[1..];
    }
  }

  /** The new policy is before everything that is not before it. */
  lemma BeforeTheRest(p: Policy, sorted: seq<Policy>)
    requires |sorted| > 0 && Ascending(sorted) && !Less(PolicyKey(sorted[0]), PolicyKey(p)) && PolicyKey(sorted[0]) != PolicyKey(p)
    ensures Ascending([p] + sorted)
  {
    LessTotal(PolicyKey(sorted[0]), PolicyKey(p));
    forall j | 0 < j < |sorted| ensures Less(PolicyKey(p), PolicyKey(sorted[j])) {
      LessTransitive(PolicyKey(p), PolicyKey(sorted[0]), PolicyKey(sorted[j]));
    }
  }

  lemma {:induction false} InsertSorts(p: Policy, sorted: seq<Policy>)
    requires Ascending(sorted) && forall q :: q in sorted ==> PolicyKey(q) != PolicyKey(p)
    ensures Ascending(Insert(p, sorted))
    decreases |sorted|
  {
    if |sorted| > 0 {
      assert sorted[0] in sorted;
      if Less(PolicyKey(sorted[0]), PolicyKey(p)) {
        var rest := Insert(p, sorted[1..]);
        InsertSorts(p, sorted[1..]);
        InsertKeeps(p, sorted[1..]);
        forall j | 0 <= j < |rest| ensures Less(PolicyKey(sorted[0]), PolicyKey(rest[j])) {
          assert rest[j] in multiset(rest);
          assert rest[j] == p || rest[j] in sorted[1..];
        }
      } else {
        BeforeTheRest(p, sorted);
      }
    }
  }

  /** sortPolicyTuples, for policies of different keys: the same policies in the order of their keys. */
  method SortPolicyTuples(policies: seq<Policy>) returns (sorted: seq<Policy>)
    requires OneForEachKey(policies)
    ensures multiset(sorted) == multiset(policies) && Ascending(sorted)
  {
    sorted := [];
    for i := 0 to |policies|
      invariant multiset(sorted) == multiset(policies[..i]) && Ascending(sorted)
    {
      NewKey(policies, i, sorted);
      InsertSorts(policies[i], sorted);
      InsertKeeps(policies[i], sorted);
      assert policies[..i + 1] == policies[..i] + [policies[i]];
      sorted := Insert(policies[i], sorted);
    }
    assert policies[..|policies|] == policies;
  }

  lemma NewKey(policies: seq<Policy>, i: nat, sorted: seq<Policy>)
    requires OneForEachKey(policies) && i < |policies| && multiset(sorted) == multiset(policies[..i])
    ensures forall q :: q in sorted ==> PolicyKey(q) != PolicyKey(policies[i])
  {
    assert policies == policies[..i] + [policies[i]] + policies[i + 1..];
    assert multiset(policies) == multiset(policies[..i]) + multiset{policies[i]} + multiset(policies[i + 1..]);
    assert multiset(policies)[policies[i]] <= 1;
    assert policies[i] !in multiset(policies[..i]);
    forall q | q in sorted ensures PolicyKey(q) != PolicyKey(policies[i]) {
      assert q in multiset(sorted);
      assert q in policies[..i] && q in policies && q != policies[i];
    }
  }

  lemma SortedIsDifference(result: seq<Policy>, sorted: seq<Policy>, from: seq<Policy>, against: seq<Policy>)
    requires IsDifference(result, from, against) && multiset(sorted) == multiset(result)
    ensures IsDifference(sorted, from, against)
  {
    forall p ensures p in sorted <==> p in result {
      assert p in sorted <==> p in multiset(sorted);
      assert p in result <==> p in multiset(result);
    }
  }

  /** diffPolicies: one policy for each key of one side that the other lacks, in the order of the keys. */
  method DiffPolicies(actual: seq<Policy>, desired: seq<Policy>) returns (missing: seq<Policy>, unexpected: seq<Policy>)
    ensures IsDifference(missing, desired, actual) && Ascending(missing)
    ensures IsDifference(unexpected, actual, desired) && Ascending(unexpected)
  {
    var unsorted := Unmatched(desired, actual);
    missing := SortPolicyTuples(unsorted);
    SortedIsDifference(unsorted, missing, desired, actual);
    unsorted := Unmatched(actual, desired);
    unexpected := SortPolicyTuples(unsorted);
    SortedIsDifference(unsorted, unexpected, actual, desired);
  }

  lemma HasNoMember(policies: seq<Policy>)
    ensures policies == [] || policies[0] in policies
  {
  }

  /** After a reconciliation the diff of every seeded role is empty both ways. */
  lemma ReconciledHasNoDiff(store: Store, desired: Desired, role: string, actual: seq<Policy>,
                            missing: seq<Policy>, unexpected: seq<Policy>)
    requires Built(desired) && role in desired && Elems(actual) == OfRole(Reconciled(store, desired), role)
    requires IsDifference(missing, desired[role], actual) && IsDifference(unexpected, actual, desired[role])
    ensures missing == [] && unexpected == []
  {
    forall p | p in desired[role] ensures KeyDesired(actual, PolicyKey(p)) {
      WantedOfIs(desired, p);
      assert p in Elems(actual);
    }
    forall p | p in actual ensures KeyDesired(desired[role], PolicyKey(p)) {
      assert p in Elems(actual);
      WantedOfIs(desired, p);
      WantedHasKey(desired, p);
    }
    HasNoMember(missing);
    HasNoMember(unexpected);
  }

}
