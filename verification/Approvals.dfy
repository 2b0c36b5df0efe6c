/** The approval gate (security/approvals.py): what one request authorises, how
    it is stored and read back, and the manager that opens, resolves, spends and
    expires it. Every manager method is one atomic step on the table. */
module Approvals {
  import opened Common
  import opened Risk

  type ApprovalId = nat
  type CallId = nat
  type Time = int

  const CONFIRMATION_PHRASE := "I ACCEPT THE RISK"

  datatype ApprovalState = Pending | Approved | Denied | Expired | Consumed

  datatype Request = Request(
    id: ApprovalId, callId: CallId, tool: string, risk: RiskLevel, expiresAt: Option<Time>,
    state: ApprovalState, needsPhrase: bool, phrase: Option<string>)

  /** The stored columns; whether a phrase is needed is not among them. */
  datatype Row = Row(
    callId: CallId, tool: string, risk: RiskLevel, expiresAt: Option<Time>, state: ApprovalState)

  type Table = map<ApprovalId, Row>

  /** A human's answer. */
  datatype Answer = Answer(requestId: ApprovalId, approved: bool, phrase: Option<string>)

  datatype Refusal = NotFound | NotPending | NotApproved | Lapsed | PhraseMissing

  function Persist(r: Request): Row {
    Row(r.callId, r.tool, r.risk, r.expiresAt, r.state)
  }

  /** `_row_to_request`: the phrase is rebuilt from the risk. */
  function FromRow(id: ApprovalId, row: Row): Request {
    Request(id, row.callId, row.tool, row.risk, row.expiresAt, row.state,
            row.risk == Destructive, if row.risk == Destructive then Some(CONFIRMATION_PHRASE) else None)
  }

  /** Storing and reading back loses nothing exactly when the phrase was asked
      for at DESTRUCTIVE and nowhere else. */
  lemma RowRoundTrip(r: Request)
    requires r.phrase == if r.needsPhrase then Some(CONFIRMATION_PHRASE) else None
    ensures FromRow(r.id, Persist(r)) == r <==> (r.needsPhrase <==> r.risk == Destructive)
  {
  }

  predicate IsExpired(row: Row, now: Time) {
    row.expiresAt.Some? && now >= row.expiresAt.value
  }

  /** The answer would be accepted. */
  predicate Resolvable(rows: Table, a: Answer, now: Time) {
    && a.requestId in rows
    && var row := rows[a.requestId];
       && row.state == Pending
       && !IsExpired(row, now)
       && (a.approved && row.risk == Destructive ==> a.phrase == Some(CONFIRMATION_PHRASE))
  }

  predicate Spendable(rows: Table, id: ApprovalId, now: Time) {
    id in rows && rows[id].state == Approved && !IsExpired(rows[id], now)
  }

  /** The request sits in `state` past its deadline. */
  predicate LapsedIn(rows: Table, id: ApprovalId, state: ApprovalState, now: Time) {
    id in rows && rows[id].state == state && IsExpired(rows[id], now)
  }

  function SetState(rows: Table, id: ApprovalId, state: ApprovalState): Table
    requires id in rows
  {
    rows[id := rows[id].(state := state)]
  }

  function AfterResolve(rows: Table, a: Answer, now: Time): Table {
    if Resolvable(rows, a, now) then SetState(rows, a.requestId, if a.approved then Approved else Denied)
    else if LapsedIn(rows, a.requestId, Pending, now) then SetState(rows, a.requestId, Expired)
    else rows
  }

  function AfterConsume(rows: Table, id: ApprovalId, now: Time): Table {
    if Spendable(rows, id, now) then SetState(rows, id, Consumed)
    else if LapsedIn(rows, id, Approved, now) then SetState(rows, id, Expired)
    else rows
  }

  function AfterExpire(rows: Table, id: ApprovalId): Table {
    if id in rows && rows[id].state == Pending then SetState(rows, id, Expired) else rows
  }

  function NewRow(callId: CallId, tool: string, risk: RiskLevel, now: Time, ttl: nat): Row {
    Row(callId, tool, risk, Some(now + ttl), Pending)
  }

  /** The moves an approval may make. */
  predicate Move(before: ApprovalState, after: ApprovalState) {
    || before == after
    || (before == Pending && (after == Approved || after == Denied || after == Expired))
    || (before == Approved && (after == Consumed || after == Expired))
  }

  /** No row is lost, none changes what it was opened for, and every state moves
      legally; a row is answered and spent only before its deadline. */
  predicate Evolves(before: Table, after: Table, now: Time) {
    forall id :: id in before ==>
      && id in after
      && after[id] == before[id].(state := after[id].state)
      && Move(before[id].state, after[id].state)
      && (after[id].state != before[id].state && after[id].state != Expired && before[id].expiresAt.Some? ==>
            now < before[id].expiresAt.value)
  }

  // Each operation in full: what it takes, with the deadline as a number.

  /** A pending request takes an answer before its deadline, with the phrase where
      one is due; from the deadline on it lapses; nothing else is touched. */
  lemma ResolveIsExact(rows: Table, a: Answer, now: Time)
    ensures var id, next := a.requestId, AfterResolve(rows, a, now);
            if id !in rows || rows[id].state != Pending then next == rows
            else if rows[id].expiresAt.Some? && rows[id].expiresAt.value <= now then
              next == rows[id := rows[id].(state := Expired)]
            else if a.approved && rows[id].risk == Destructive && a.phrase != Some("I ACCEPT THE RISK") then next == rows
            else next == rows[id := rows[id].(state := if a.approved then Approved else Denied)]
  {
  }

  /** The same for spending what was approved. */
  lemma ConsumeIsExact(rows: Table, id: ApprovalId, now: Time)
    ensures var next := AfterConsume(rows, id, now);
            if id !in rows || rows[id].state != Approved then next == rows
            else if rows[id].expiresAt.Some? && rows[id].expiresAt.value <= now then
              next == rows[id := rows[id].(state := Expired)]
            else next == rows[id := rows[id].(state := Consumed)]
  {
  }

  // Every operation keeps to the lifecycle.

  lemma ResolveEvolves(rows: Table, answer: Answer, now: Time)
    ensures Evolves(rows, AfterResolve(rows, answer, now), now)
  {
  }

  lemma ConsumeEvolves(rows: Table, id: ApprovalId, now: Time)
    ensures Evolves(rows, AfterConsume(rows, id, now), now)
  {
  }

  lemma ExpireEvolves(rows: Table, id: ApprovalId, now: Time)
    ensures Evolves(rows, AfterExpire(rows, id), now)
  {
  }

  /** `ApprovalManager`, with the table as its one field. */
  class ApprovalManager {
    var rows: Table
    const ttl: nat

    constructor (ttl: nat)
      ensures rows == map[] && this.ttl == ttl
    {
      this.ttl := ttl;
      rows := map[];
    }

    method Get(id: ApprovalId) returns (r: Option<Request>)
      ensures r == if id in rows then Some(FromRow(id, rows[id])) else None
    {
      if id in rows {
        r := Some(FromRow(id, rows[id]));
      } else {
        r := None;
      }
    }

    /** The id is freshly generated. */
    method Open(id: ApprovalId, callId: CallId, tool: string, risk: RiskLevel, needsPhrase: bool, now: Time)
      returns (r: Request)
      requires id !in rows
      modifies this
      ensures rows == old(rows)[id := NewRow(callId, tool, risk, now, ttl)]
      ensures rows[id] == Row(callId, tool, risk, Some(now + ttl), Pending)
      ensures r.id == id && r.needsPhrase == needsPhrase && r.state == Pending
      ensures (needsPhrase <==> risk == Destructive) ==> r == FromRow(id, rows[id])
    {
      r := Request(id, callId, tool, risk, Some(now + ttl), Pending, needsPhrase,
                   if needsPhrase then Some(CONFIRMATION_PHRASE) else None);
      rows := rows[id := Persist(r)];
    }

    method Resolve(answer: Answer, now: Time) returns (r: Result<Request, Refusal>)
      modifies this
      ensures rows == AfterResolve(old(rows), answer, now)
      ensures r.Ok? <==> Resolvable(old(rows), answer, now)
      ensures r.Ok? ==> r.value == FromRow(answer.requestId, rows[answer.requestId])
      ensures r == Err(NotFound) <==> answer.requestId !in old(rows)
      ensures r.Ok? ==>
                var was := old(rows)[answer.requestId];
                && was.state == Pending && (was.expiresAt.Some? ==> now < was.expiresAt.value)
                && rows == old(rows)[answer.requestId := was.(state := if answer.approved then Approved else Denied)]
      ensures r == Err(Lapsed) <==>
                && answer.requestId in old(rows)
                && var was := old(rows)[answer.requestId];
                   was.state == Pending && was.expiresAt.Some? && was.expiresAt.value <= now
      ensures r == Err(Lapsed) ==> rows == old(rows)[answer.requestId := old(rows)[answer.requestId].(state := Expired)]
      ensures r.Err? && r.error != Lapsed ==> rows == old(rows)
      ensures r.Err? ==> r.error in {NotFound, NotPending, Lapsed, PhraseMissing}
    {
      var found := Get(answer.requestId);
      if found.None? {
        return Err(NotFound);
      }
      var request := found.value;
      if request.state != Pending {
        return Err(NotPending);
      }
      if IsExpired(Persist(request), now) {
        request := request.(state := Expired);
        rows := rows[request.id := Persist(request)];
        return Err(Lapsed);
      }
      if answer.approved && request.needsPhrase && answer.phrase != request.phrase {
        return Err(PhraseMissing);
      }
      request := request.(state := if answer.approved then Approved else Denied);
      rows := rows[request.id := Persist(request)];
      r := Ok(request);
    }

    method Consume(id: ApprovalId, now: Time) returns (r: Result<Request, Refusal>)
      modifies this
      ensures rows == AfterConsume(old(rows), id, now)
      ensures r.Ok? <==> Spendable(old(rows), id, now)
      ensures r.Ok? ==> r.value == FromRow(id, rows[id])
      ensures r == Err(NotFound) <==> id !in old(rows)
      ensures r.Ok? ==>
                var was := old(rows)[id];
                && was.state == Approved && (was.expiresAt.Some? ==> now < was.expiresAt.value)
                && rows == old(rows)[id := was.(state := Consumed)]
      ensures r == Err(Lapsed) <==>
                && id in old(rows)
                && var was := old(rows)[id];
                   was.state == Approved && was.expiresAt.Some? && was.expiresAt.value <= now
      ensures r == Err(Lapsed) ==> rows == old(rows)[id := old(rows)[id].(state := Expired)]
      ensures r.Err? && r.error != Lapsed ==> rows == old(rows)
      ensures r.Err? ==> r.error in {NotFound, NotApproved, Lapsed}
    {
      var found := Get(id);
      if found.None? {
        return Err(NotFound);
      }
      var request := found.value;
      if request.state != Approved {
        return Err(NotApproved);
      }
      if IsExpired(Persist(request), now) {
        rows := rows[id := rows[id].(state := Expired)];
        return Err(Lapsed);
      }
      request := request.(state := Consumed);
      rows := rows[id := rows[id].(state := Consumed)];
      r := Ok(request);
    }

    /** A waiter's timeout expires the request it was waiting on. */
    method Expire(id: ApprovalId)
      modifies this
      ensures rows == AfterExpire(old(rows), id)
      ensures rows == if id in old(rows) && old(rows)[id].state == Pending
                      then old(rows)[id := old(rows)[id].(state := Expired)] else old(rows)
    {
      if id in rows && rows[id].state == Pending {
        rows := rows[id := rows[id].(state := Expired)];
      }
    }
  }
}
