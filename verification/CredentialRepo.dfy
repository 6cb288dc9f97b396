/**
 The credential rows as CredentialRepo writes them: upserts that leave the generation alone, and two
 compare-and-swaps, on the generation and on the profile revision.
 */
module CredentialRepo {
  import opened Operations

  datatype Row = Row(
    account: string,
    generation: Generation,
    blob: string,
    status: string,
    snapshotComplete: bool,
    revision: Generation,
    observed: Generation)

  type Rows = map<string, Row>

  /** One call of the repository. */
  datatype Call =
    | Save(binding: string, row: Row)
    | Create(binding: string, row: Row)
    | SetSnapshot(binding: string, complete: bool, revision: Generation, observed: Generation)
    | AdvanceGeneration(binding: string, account: string, expected: Generation, target: Generation)
    | AdvanceRevision(binding: string, account: string, generation: Generation, expected: Generation)

  /** The WHERE clause of the call finds its row, or the insert meets no row. */
  predicate Succeeds(rows: Rows, c: Call) {
    match c
    case Save(_, _) => true
    case Create(b, _) => b !in rows
    case SetSnapshot(b, _, _, _) => b in rows
    case AdvanceGeneration(b, account, expected, _) =>
      b in rows && rows[b].account == account && rows[b].generation == expected
    case AdvanceRevision(b, account, generation, expected) =>
      b in rows && rows[b].account == account && rows[b].generation == generation
      && rows[b].revision == expected && rows[b].observed == expected && rows[b].snapshotComplete
  }

  predicate OthersKept(before: Rows, after: Rows, binding: string) {
    after - {binding} == before - {binding}
  }

  class CredentialRepo {
    var rows: Rows

    constructor()
      ensures rows == map[]
    {
      rows := map[];
    }

    /** The conflict clause lists every column but the generation. */
    method Save(binding: string, row: Row)
      modifies this
      ensures rows == After(old(rows), Call.Save(binding, row))
      ensures binding in rows && OthersKept(old(rows), rows, binding)
      ensures rows[binding].account == row.account && rows[binding].blob == row.blob && rows[binding].status == row.status
      ensures rows[binding].snapshotComplete == row.snapshotComplete
      ensures rows[binding].revision == row.revision && rows[binding].observed == row.observed
      ensures rows[binding].generation == if binding in old(rows) then old(rows)[binding].generation else row.generation
    {
      if binding !in rows {
        rows := rows[binding := row];
      } else {
        var stored := rows[binding].(account := row.account, blob := row.blob, status := row.status);
        stored := stored.(snapshotComplete := row.snapshotComplete, revision := row.revision, observed := row.observed);
        rows := rows[binding := stored];
      }
    }

    method Create(binding: string, row: Row) returns (ok: bool)
      modifies this
      ensures ok <==> binding !in old(rows)
      ensures if ok then binding in rows && rows[binding] == row && OthersKept(old(rows), rows, binding) else rows == old(rows)
      ensures rows == After(old(rows), Call.Create(binding, row))
    {
      ok := binding !in rows;
      if ok { rows := rows[binding := row]; }
    }

    method SetProfileSnapshotState(binding: string, complete: bool, revision: Generation, observed: Generation)
      returns (ok: bool)
      modifies this
      ensures ok <==> binding in old(rows)
      ensures ok ==>
        && binding in rows && OthersKept(old(rows), rows, binding)
        && rows[binding].snapshotComplete == complete && rows[binding].revision == revision && rows[binding].observed == observed
        && rows[binding].account == old(rows)[binding].account && rows[binding].blob == old(rows)[binding].blob
        && rows[binding].status == old(rows)[binding].status && rows[binding].generation == old(rows)[binding].generation
      ensures !ok ==> rows == old(rows)
      ensures rows == After(old(rows), SetSnapshot(binding, complete, revision, observed))
    {
      ok := binding in rows;
      if ok { rows := rows[binding := rows[binding].(snapshotComplete := complete, revision := revision, observed := observed)]; }
    }

    method AdvanceGeneration(binding: string, account: string, expected: Generation, target: Generation) returns (ok: bool)
      modifies this
      ensures ok <==> binding in old(rows) && old(rows)[binding].account == account && old(rows)[binding].generation == expected
      ensures ok ==>
        && binding in rows && OthersKept(old(rows), rows, binding)
        && rows[binding].generation == target && rows[binding].(generation := expected) == old(rows)[binding]
      ensures !ok ==> rows == old(rows)
      ensures rows == After(old(rows), Call.AdvanceGeneration(binding, account, expected, target))
    {
      ok := binding in rows && rows[binding].account == account && rows[binding].generation == expected;
      if ok { rows := rows[binding := rows[binding].(generation := target)]; }
    }

    method AdvanceProfileRevision(binding: string, account: string, generation: Generation, expected: Generation)
      returns (ok: bool)
      modifies this
      ensures ok <==>
        && binding in old(rows)
        && old(rows)[binding].account == account && old(rows)[binding].generation == generation
        && old(rows)[binding].revision == old(rows)[binding].observed == expected && old(rows)[binding].snapshotComplete
      ensures ok ==>
        && binding in rows && OthersKept(old(rows), rows, binding)
        && rows[binding].revision == rows[binding].observed == (expected + 1) % UINT64_SPAN
        && rows[binding].(revision := expected, observed := expected) == old(rows)[binding]
      ensures !ok ==> rows == old(rows)
      ensures rows == After(old(rows), AdvanceRevision(binding, account, generation, expected))
    {
      if binding !in rows { return false; }
      var row := rows[binding];
      ok := row.account == account && row.generation == generation && row.revision == expected
            && row.observed == expected && row.snapshotComplete;
      if ok {
        var next := NextGeneration(expected);
        rows := rows[binding := row.(revision := next, observed := next)];
      }
    }
  }

  function After(rows: Rows, c: Call): Rows {
    if !Succeeds(rows, c) then rows
    else
      match c
      case Save(b, row) => rows[b := if b in rows then row.(generation := rows[b].generation) else row]
      case Create(b, row) => rows[b := row]
      case SetSnapshot(b, complete, revision, observed) =>
        rows[b := rows[b].(snapshotComplete := complete, revision := revision, observed := observed)]
      case AdvanceGeneration(b, _, _, target) => rows[b := rows[b].(generation := target)]
      case AdvanceRevision(b, _, _, expected) =>
        rows[b := rows[b].(revision := NextGeneration(expected), observed := NextGeneration(expected))]
  }

  function AfterAll(rows: Rows, calls: seq<Call>): Rows
    decreases |calls|
  {
    if |calls| == 0 then rows else AfterAll(After(rows, calls[0]), calls[1..])
  }

  /** The targets the successful generation swaps of one binding wrote, in order. */
  function Targets(rows: Rows, calls: seq<Call>, binding: string): seq<Generation>
    decreases |calls|
  {
    if |calls| == 0 then []
    else
      var c, rest := calls[0], Targets(After(rows, calls[0]), calls[1..], binding);
      if c.AdvanceGeneration? && c.binding == binding && Succeeds(rows, c) then [c.target] + rest else rest
  }

  /** Whatever calls arrive, the generation of a row is what the last successful swap wrote. */
  lemma {:induction false} OnlySwapsMoveTheGeneration(rows: Rows, calls: seq<Call>, binding: string)
    requires binding in rows
    ensures binding in AfterAll(rows, calls)
    ensures var targets := Targets(rows, calls, binding);
      AfterAll(rows, calls)[binding].generation == if targets == [] then rows[binding].generation else targets[|targets| - 1]
    decreases |calls|
  {
    if |calls| > 0 {
      OnlySwapsMoveTheGeneration(After(rows, calls[0]), calls[1..], binding);
    }
  }

}
