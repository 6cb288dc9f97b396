/**
 The operations table of Platform Mihomo: what OperationRepo writes to one row, and the repository
 itself as a class over the table.
 */
module Operations {

  type OperationId = string
  type Token = nat

  const UINT64_SPAN: nat := 0x1_0000_0000_0000_0000

  /** A credential generation: an unsigned 64-bit counter. */
  type Generation = g: nat | g < UINT64_SPAN

  /** `pre + 1` of the source wraps around. */
  function NextGeneration(pre: Generation): Generation {
    if pre == UINT64_SPAN - 1 then 0 else pre + 1
  }

  datatype Kind =
    | NoKind
    | BindCredential
    | ReplaceCredential
    | RefreshCredential
    | DeleteCredential
    | ApplyAuthorizationFence
    | SetPrimaryProfile
    | OtherKind(name: string)

  datatype OperationRef = OperationRef(
    id: OperationId, kind: Kind, binding: string, pre: Generation, target: Generation, fingerprint: string)

  /** The state column; Complete may store any text but the three it refuses. */
  datatype State = Blank | Pending | NotReceived | FailedInputRequired | Failed | Succeeded | OtherState(text: string)

  datatype Report = Report(state: State, reason: string, account: string, status: string, snapshot: string)

  datatype Record = Record(ref: OperationRef, report: Report, token: Token, leaseExpires: nat)

  const EXECUTION_LEASE: nat := 30
  const UNKNOWN_OUTCOME := "operation_outcome_unknown"

  type Table = map<OperationId, Record>

  /** validateOperationRef. */
  predicate ValidRef(ref: OperationRef) {
    && ref.id != "" && ref.kind != NoKind && ref.binding != "" && ref.fingerprint != ""
    && ref.target == (if ref.kind == ApplyAuthorizationFence || ref.kind == SetPrimaryProfile then ref.pre
                      else NextGeneration(ref.pre))
  }

  function Fresh(ref: OperationRef, state: State, token: Token, leaseExpires: nat): Record {
    Record(ref, Report(state, "", "", "", "{}"), token, leaseExpires)
  }

  /** INSERT ... ON CONFLICT DO NOTHING. */
  function Insert(ops: Table, record: Record): Table {
    if record.ref.id in ops then ops else ops[record.ref.id := record]
  }

  /** The row `WHERE operation_id = id AND state = 'pending' AND execution_token = token` selects. */
  predicate Executable(ops: Table, id: OperationId, token: Token) {
    id in ops && ops[id].report.state == Pending && ops[id].token == token
  }

  predicate Completes(report: Report) {
    report.state != Blank && report.state != Pending && report.state != NotReceived
  }

  function Admission(ops: Table, ref: OperationRef, now: nat, token: Token): Table {
    Insert(ops, Fresh(ref, Pending, token, now + EXECUTION_LEASE))
  }

  function Completion(ops: Table, id: OperationId, token: Token, report: Report): Table {
    if Executable(ops, id, token) && Completes(report) then ops[id := ops[id].(report := report)] else ops
  }

  function Failure(ops: Table, id: OperationId, token: Token, reason: string, freshToken: Token): Table {
    if Executable(ops, id, token) then
      ops[id := ops[id].(report := ops[id].report.(state := Failed, reason := reason), token := freshToken)]
    else ops
  }

  function Abandonment(record: Record, freshToken: Token): Record {
    record.(report := record.report.(state := FailedInputRequired, reason := UNKNOWN_OUTCOME), token := freshToken)
  }

  /** Resolve leaves a tombstone for an unknown id and closes a pending row whose lease has run out. */
  function Resolution(ops: Table, ref: OperationRef, now: nat, freshToken: Token): Table {
    if ref.id !in ops then Insert(ops, Fresh(ref, NotReceived, freshToken, now))
    else if ops[ref.id].ref == ref && ops[ref.id].report.state == Pending && ops[ref.id].leaseExpires <= now then
      ops[ref.id := Abandonment(ops[ref.id], freshToken)]
    else ops
  }

  datatype Reply = Found(record: Record) | Missing | Conflict | InvalidState

  class OperationRepo {
    var ops: Table
    var now: nat
    /** uuid.NewString: every call yields a token no row has carried. */
    var nextToken: Token

    constructor()
      ensures ops == map[] && nextToken == 0 && now == 0
    {
      ops, nextToken, now := map[], 0, 0;
    }

    method NewToken() returns (token: Token)
      modifies this`nextToken
      ensures token == old(nextToken) && nextToken == old(nextToken) + 1
    {
      token := nextToken;
      nextToken := nextToken + 1;
    }

    method Get(id: OperationId) returns (reply: Reply)
      ensures reply == if id in ops then Found(ops[id]) else Missing
    {
      if id !in ops { return Missing; }
      reply := Found(ops[id]);
    }

    /** At most one Admit of an id reports an admission; any other finds the row that is already there. */
    method Admit(ref: OperationRef) returns (reply: Reply, admitted: bool)
      modifies this`ops, this`nextToken
      ensures ops == Admission(old(ops), ref, now, old(nextToken)) && nextToken == old(nextToken) + 1
      ensures admitted <==> ref.id !in old(ops)
      ensures reply == if ops[ref.id].ref == ref then Found(ops[ref.id]) else Conflict
      ensures !admitted ==> ops == old(ops)
      ensures admitted ==>
        && ops == old(ops)[ref.id := ops[ref.id]] && ops[ref.id].ref == ref && ops[ref.id].report.state == Pending
        && ops[ref.id].token == old(nextToken) && ops[ref.id].leaseExpires == now + 30
    {
      var token := NewToken();
      var record := Record(ref, Report(Pending, "", "", "", "{}"), token, now + EXECUTION_LEASE);
      admitted := ref.id !in ops;
      if admitted {
        ops := ops[ref.id := record];
        return Found(record), true;
      }
      var existing := Get(ref.id);
      if existing.Missing? || existing.record.ref != ref { return Conflict, false; }
      reply := existing;
    }

    /** Takes the row lock when it finds the row; the lock itself belongs to the transaction. */
    method LockPending(id: OperationId, token: Token) returns (ok: bool)
      ensures ok <==> Executable(ops, id, token)
    {
      ok := id in ops && ops[id].report.state == Pending && ops[id].token == token;
    }

    method Complete(id: OperationId, token: Token, report: Report) returns (ok: bool)
      modifies this`ops
      ensures ops == Completion(old(ops), id, token, report)
      ensures ok <==> Executable(old(ops), id, token) && Completes(report)
      ensures ok ==>
        && old(ops)[id].report.state == Pending && old(ops)[id].token == token && report.state != NotReceived
        && ops == old(ops)[id := old(ops)[id].(report := report)] && !Executable(ops, id, token)
      ensures !ok ==> ops == old(ops)
    {
      if report.state == Blank || report.state == Pending || report.state == NotReceived { return false; }
      ok := LockPending(id, token);
      if ok { ops := ops[id := ops[id].(report := report)]; }
    }

    method FailPending(id: OperationId, token: Token, reason: string) returns (ok: bool)
      modifies this`ops, this`nextToken
      ensures ops == Failure(old(ops), id, token, reason, old(nextToken)) && nextToken == old(nextToken) + 1
      ensures ok <==> Executable(old(ops), id, token)
      ensures ok ==>
        && old(ops)[id].report.state == Pending && old(ops)[id].token == token && ops[id].token == old(nextToken)
        && ops[id].report == old(ops)[id].report.(state := Failed, reason := reason)
        && ops == old(ops)[id := ops[id]] && ops[id].ref == old(ops)[id].ref
        && forall other :: !Executable(ops, id, other)
      ensures !ok ==> ops == old(ops)
    {
      var newToken := NewToken();
      ok := LockPending(id, token);
      if ok {
        var failed := ops[id].report.(state := Failed, reason := reason);
        ops := ops[id := ops[id].(report := failed, token := newToken)];
      }
    }

    /** After a Resolve the row exists, and it is pending only while its lease runs. */
    method Resolve(ref: OperationRef) returns (reply: Reply)
      modifies this`ops, this`nextToken
      ensures ops == Resolution(old(ops), ref, now, ResolveToken(old(ops), ref, old(nextToken)))
      ensures nextToken >= old(nextToken)
      ensures ref.id in ops
      ensures reply == if ops[ref.id].ref == ref then Found(ops[ref.id]) else Conflict
      ensures reply.Found? && reply.record.report.state == Pending ==> now < reply.record.leaseExpires
      ensures ref.id !in old(ops) ==> reply == Found(ops[ref.id]) && ops[ref.id].report.state == NotReceived
      ensures ref.id in old(ops) && old(ops)[ref.id].ref != ref ==> ops == old(ops)
      ensures ref.id in old(ops) && old(ops)[ref.id].report.state != Pending ==> ops == old(ops)
      ensures ref.id in old(ops) && now < old(ops)[ref.id].leaseExpires ==> ops == old(ops)
      ensures reply.Found? && ops != old(ops) && ref.id in old(ops) ==>
        && ops[ref.id].report.state == FailedInputRequired && ops[ref.id].report.reason == "operation_outcome_unknown"
    {
      var token := NewToken();
      if ref.id !in ops {
        ops := ops[ref.id := Record(ref, Report(NotReceived, "", "", "", "{}"), token, now)];
        return Found(ops[ref.id]);
      }
      var existing := Get(ref.id);
      if existing.record.ref != ref { return Conflict; }
      if existing.record.report.state == Pending && !(existing.record.leaseExpires > now) {
        var closing := NewToken();
        var found := LockPending(ref.id, existing.record.token);
        if found {
          var closed := existing.record.report.(state := FailedInputRequired, reason := UNKNOWN_OUTCOME);
          ops := ops[ref.id := ops[ref.id].(report := closed, token := closing)];
        }
        reply := Get(ref.id);
        return;
      }
      reply := existing;
    }
  }

  /** The tombstone gets the first token of the call, a closed row the second. */
  function ResolveToken(ops: Table, ref: OperationRef, nextToken: Token): Token {
    if ref.id in ops then nextToken + 1 else nextToken
  }

}
