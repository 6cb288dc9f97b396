/** Authorization fences and the versions a consumer ticket carries. */
module Authorization {

  /** The minimum versions a consumer ticket must reach on one binding. */
  datatype Fence = Fence(grant: nat, owner: nat, consumer: nat, entry: nat)

  const OPEN_FENCE := Fence(0, 0, 0, 0)

  /** The versions stamped into one consumer ticket. */
  datatype Versions = Versions(grant: nat, owner: nat, consumer: nat, entry: nat, generation: nat)

  function Max(a: nat, b: nat): nat {
    if a < b then b else a
  }

  /** The stored fence after an upsert: GREATEST on every column. */
  function Join(f: Fence, g: Fence): Fence {
    Fence(Max(f.grant, g.grant), Max(f.owner, g.owner), Max(f.consumer, g.consumer), Max(f.entry, g.entry))
  }

  predicate Leq(f: Fence, g: Fence) {
    f.grant <= g.grant && f.owner <= g.owner && f.consumer <= g.consumer && f.entry <= g.entry
  }

  /** The ticket is not below the fence. */
  predicate Clears(v: Versions, f: Fence) {
    v.grant >= f.grant && v.owner >= f.owner && v.consumer >= f.consumer && v.entry >= f.entry
  }

  lemma JoinIsLeastUpperBound(f: Fence, g: Fence)
    ensures Leq(f, Join(f, g)) && Leq(g, Join(f, g))
    ensures forall h :: Leq(f, h) && Leq(g, h) ==> Leq(Join(f, g), h)
  {
  }

  /** Raising the fence can only turn tickets away: verification is antitone in the fence. */
  lemma ClearsAntitone(v: Versions, f: Fence, g: Fence)
    requires Leq(f, g) && Clears(v, g)
    ensures Clears(v, f)
  {
  }

}
