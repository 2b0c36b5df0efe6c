/** What every completed lifecycle operation does to the credential table and to
    the audit trail beside it, and what that makes true of every history
    (security/credential_service.py, security/credential_store.py). */
module CredentialHistory {
  import opened Common
  import opened Credentials

  type Rows = map<string, Credential>

  /** What an audit row says about the credential it is about. */
  datatype Fields = Fields(credentialId: string, actorId: string, actorType: ActorType, scopes: set<Scope>)

  datatype Entry =
    | CredentialCreated(fields: Fields)
    | CredentialRotated(fields: Fields, rotatedFrom: string, previousRevoked: bool)
    | CredentialRevoked(fields: Fields, at: Time, byRotation: bool)
    | CredentialPruned(fields: Fields)

  function FieldsOf(c: Credential): Fields {
    Fields(c.credentialId, c.holder.actorId, c.holder.actorType, c.holder.scopes)
  }

  // ---- the table

  /** The first revocation stands. */
  function AfterRevoke(rows: Rows, id: string, when: Time): Rows {
    if id in rows && rows[id].revokedAt == None then rows[id := rows[id].WithRevokedAt(when)] else rows
  }

  function AfterUse(rows: Rows, id: string, when: Time): Rows {
    if id in rows then rows[id := rows[id].(lastUsedAt := Some(when))] else rows
  }

  /** Insert the replacement; revoke the original if asked to. */
  function AfterRotate(rows: Rows, id: string, replacement: Credential, revokeOldAt: Option<Time>): Rows {
    var more := rows[replacement.credentialId := replacement];
    if revokeOldAt.Some? then AfterRevoke(more, id, revokeOldAt.value) else more
  }

  /** Not usable, and the moment it stopped being usable is before the cutoff. */
  predicate Retired(c: Credential, olderThan: Time, now: Time) {
    && !c.UsableAt(now)
    && var retiredAt := if c.revokedAt.Some? then c.revokedAt else c.expiresAt;
       retiredAt.Some? && retiredAt.value < olderThan
  }

  /** The rows to prune, in whatever order the table lists them. */
  predicate Doomed(rows: Rows, olderThan: Time, now: Time, doomed: seq<Credential>) {
    && (forall i :: 0 <= i < |doomed| ==>
          && doomed[i].credentialId in rows && rows[doomed[i].credentialId] == doomed[i]
          && Retired(doomed[i], olderThan, now))
    && (forall id :: id in rows && Retired(rows[id], olderThan, now) ==> rows[id] in doomed)
    && (forall i, j :: 0 <= i < j < |doomed| ==> doomed[i].credentialId != doomed[j].credentialId)
  }

  function Ids(cs: seq<Credential>): set<string> {
    set i | 0 <= i < |cs| :: cs[i].credentialId
  }

  function Prunings(cs: seq<Credential>): seq<Entry> {
    if cs == [] then [] else Prunings(cs[..|cs| - 1]) + [CredentialPruned(FieldsOf(cs[|cs| - 1]))]
  }

  // ---- operations

  datatype Op =
    | Create(draw: Draw, holder: Holder, expiresAt: Option<Time>, now: Time)
    | Revoke(id: string, when: Time)
    | Rotate(id: string, revokePrevious: bool, draw: Draw, expiresAt: Option<Time>, now: Time, when: Time)
    | Prune(olderThan: Time, now: Time, doomed: seq<Credential>)
    | Use(id: string, when: Time)

  datatype World = World(rows: Rows, audit: seq<Entry>)

  function Minted(hasher: Hasher, rows: Rows, op: Op): Result<Issued, Fault>
    requires op.Create? || op.Rotate?
  {
    match op
    case Create(draw, holder, expiresAt, now) => IssueCredential(hasher, draw, holder, expiresAt, None, now)
    case Rotate(id, _, draw, expiresAt, now, _) =>
      if id in rows then IssueCredential(hasher, draw, rows[id].holder, expiresAt, Some(id), now) else Err(NotFound)
  }

  /** The operation goes through, storage permitting. */
  predicate Completes(hasher: Hasher, w: World, op: Op) {
    match op
    case Create(draw, _, _, _) => Minted(hasher, w.rows, op).Ok? && draw.credentialId !in w.rows
    case Revoke(id, _) => id in w.rows
    case Rotate(id, _, draw, _, _, _) => Minted(hasher, w.rows, op).Ok? && draw.credentialId !in w.rows
    case Prune(olderThan, now, doomed) => Doomed(w.rows, olderThan, now, doomed)
    case Use(id, _) => true
  }

  function Apply(hasher: Hasher, w: World, op: Op): World {
    if !Completes(hasher, w, op) then w
    else
      match op
      case Create(draw, _, _, _) =>
        var c := Minted(hasher, w.rows, op).value.credential;
        World(w.rows[c.credentialId := c], w.audit + [CredentialCreated(FieldsOf(c))])
      case Revoke(id, when) =>
        World(AfterRevoke(w.rows, id, when), w.audit + [CredentialRevoked(FieldsOf(w.rows[id]), when, false)])
      case Rotate(id, revokePrevious, _, _, _, when) =>
        var c := Minted(hasher, w.rows, op).value.credential;
        World(AfterRotate(w.rows, id, c, if revokePrevious then Some(when) else None),
              w.audit + [CredentialRotated(FieldsOf(c), id, revokePrevious)]
              + if revokePrevious then [CredentialRevoked(FieldsOf(w.rows[id]), when, true)] else [])
      case Prune(_, _, doomed) =>
        World(w.rows - Ids(doomed), w.audit + Prunings(doomed))
      case Use(id, when) =>
        World(AfterUse(w.rows, id, when), w.audit)
  }

  function Run(hasher: Hasher, ops: seq<Op>): World {
    if ops == [] then World(map[], [])
    else Apply(hasher, Run(hasher, ops[..|ops| - 1]), ops[|ops| - 1])
  }

  function Draws(op: Op): set<string> {
    if op.Create? || op.Rotate? then {op.draw.credentialId} else {}
  }

  /** Every id ever drawn. */
  function Drawn(ops: seq<Op>): set<string> {
    if ops == [] then {} else Drawn(ops[..|ops| - 1]) + Draws(ops[|ops| - 1])
  }

  /** A history: every operation completed, and no id was drawn twice. */
  predicate History(hasher: Hasher, ops: seq<Op>) {
    ops != [] ==>
      var n := |ops| - 1;
      && History(hasher, ops[..n])
      && Completes(hasher, Run(hasher, ops[..n]), ops[n])
      && (ops[n].Create? || ops[n].Rotate? ==>
            ops[n].draw.WellFormed() && ops[n].draw.credentialId !in Drawn(ops[..n]))
  }

  // ---- the trail tells the whole story

  /** The columns of the table a reader can rebuild from the trail. */
  datatype Line = Line(fields: Fields, revokedAt: Option<Time>)

  function View(rows: Rows): map<string, Line> {
    map id | id in rows :: Line(FieldsOf(rows[id]), rows[id].revokedAt)
  }

  /** One audit entry, replayed: created and rotated add a line, the first
      revocation dates it, pruning removes it. */
  function Replayed(lines: map<string, Line>, e: Entry): map<string, Line> {
    match e
    case CredentialCreated(f) => lines[f.credentialId := Line(f, None)]
    case CredentialRotated(f, _, _) => lines[f.credentialId := Line(f, None)]
    case CredentialRevoked(f, at, _) =>
      if f.credentialId in lines && lines[f.credentialId].revokedAt == None
      then lines[f.credentialId := lines[f.credentialId].(revokedAt := Some(at))] else lines
    case CredentialPruned(f) => lines - {f.credentialId}
  }

  function Replay(audit: seq<Entry>): map<string, Line> {
    if audit == [] then map[] else Replayed(Replay(audit[..|audit| - 1]), audit[|audit| - 1])
  }

  /** Every row is filed under its own id. */
  ghost predicate Keyed(rows: Rows) {
    forall id :: id in rows ==> rows[id].credentialId == id
  }

  lemma ReplaySnoc(audit: seq<Entry>, e: Entry)
    ensures Replay(audit + [e]) == Replayed(Replay(audit), e)
  {
    assert (audit + [e])[..|audit|] == audit;
  }

  lemma {:induction false} ReplayPrunings(audit: seq<Entry>, cs: seq<Credential>)
    ensures Replay(audit + Prunings(cs)) == Replay(audit) - Ids(cs)
  {
    if cs == [] {
      assert audit + Prunings(cs) == audit;
    } else {
      var rest, last := cs[..|cs| - 1], cs[|cs| - 1];
      ReplayPrunings(audit, rest);
      var e := CredentialPruned(FieldsOf(last));
      assert audit + (Prunings(rest) + [e]) == (audit + Prunings(rest)) + [e];
      ReplaySnoc(audit + Prunings(rest), e);
      IdsSnoc(cs);
      assert Replay(audit) - Ids(rest) - {last.credentialId} == Replay(audit) - Ids(cs);
    }
  }

  lemma IdsSnoc(cs: seq<Credential>)
    requires cs != []
    ensures Ids(cs) == Ids(cs[..|cs| - 1]) + {cs[|cs| - 1].credentialId}
  {
  }

  /** Folding the audit trail rebuilds the live table exactly: who, with which
      scopes, and since when revoked, after every history. */
  lemma {:induction false} TrailRebuildsTable(hasher: Hasher, ops: seq<Op>)
    ensures Replay(Run(hasher, ops).audit) == View(Run(hasher, ops).rows)
    ensures Keyed(Run(hasher, ops).rows)
    ensures var w := Run(hasher, ops);
            && Replay(w.audit).Keys == w.rows.Keys
            && forall id :: id in w.rows ==>
                 var c := w.rows[id];
                 Replay(w.audit)[id] ==
                 Line(Fields(id, c.holder.actorId, c.holder.actorType, c.holder.scopes), c.revokedAt)
  {
    if ops != [] {
      var past, op := ops[..|ops| - 1], ops[|ops| - 1];
      TrailRebuildsTable(hasher, past);
      if Completes(hasher, Run(hasher, past), op) {
        StepRebuilds(hasher, Run(hasher, past), op);
      }
    }
  }

  lemma StepRebuilds(hasher: Hasher, w: World, op: Op)
    requires Completes(hasher, w, op) && Keyed(w.rows) && Replay(w.audit) == View(w.rows)
    ensures Replay(Apply(hasher, w, op).audit) == View(Apply(hasher, w, op).rows)
    ensures Keyed(Apply(hasher, w, op).rows)
  {
    match op
    case Create(_, _, _, _) =>
      var c := Minted(hasher, w.rows, op).value.credential;
      InsertRebuilds(w, c, CredentialCreated(FieldsOf(c)));
    case Revoke(id, when) =>
      RevokeRebuilds(w, id, when, false);
    case Rotate(id, revokePrevious, _, _, _, when) =>
      RotateRebuilds(w, id, Minted(hasher, w.rows, op).value.credential, revokePrevious, when);
    case Prune(_, _, doomed) =>
      ReplayPrunings(w.audit, doomed);
      assert View(w.rows - Ids(doomed)) == View(w.rows) - Ids(doomed);
    case Use(_, _) =>
  }

  lemma InsertRebuilds(w: World, c: Credential, e: Entry)
    requires Keyed(w.rows) && Replay(w.audit) == View(w.rows) && c.revokedAt == None
    requires e == CredentialCreated(FieldsOf(c)) || (e.CredentialRotated? && e.fields == FieldsOf(c))
    ensures Replay(w.audit + [e]) == View(w.rows[c.credentialId := c]) && Keyed(w.rows[c.credentialId := c])
  {
    ReplaySnoc(w.audit, e);
  }

  lemma RotateRebuilds(w: World, id: string, c: Credential, revokePrevious: bool, when: Time)
    requires Keyed(w.rows) && Replay(w.audit) == View(w.rows) && c.revokedAt == None
    requires id in w.rows && c.credentialId !in w.rows
    ensures var rows := AfterRotate(w.rows, id, c, if revokePrevious then Some(when) else None);
            && Keyed(rows)
            && Replay(w.audit + [CredentialRotated(FieldsOf(c), id, revokePrevious)]
                      + if revokePrevious then [CredentialRevoked(FieldsOf(w.rows[id]), when, true)] else []) == View(rows)
  {
    var e := CredentialRotated(FieldsOf(c), id, revokePrevious);
    InsertRebuilds(w, c, e);
    var more := World(w.rows[c.credentialId := c], w.audit + [e]);
    if revokePrevious {
      RevokeRebuilds(more, id, when, true);
    } else {
      assert more.audit + [] == more.audit;
    }
  }

  lemma RevokeRebuilds(w: World, id: string, when: Time, byRotation: bool)
    requires Keyed(w.rows) && Replay(w.audit) == View(w.rows) && id in w.rows
    ensures Replay(w.audit + [CredentialRevoked(FieldsOf(w.rows[id]), when, byRotation)])
            == View(AfterRevoke(w.rows, id, when))
    ensures Keyed(AfterRevoke(w.rows, id, when))
  {
    ReplaySnoc(w.audit, CredentialRevoked(FieldsOf(w.rows[id]), when, byRotation));
  }

  // ---- revocation is for good

  /** What a later table may differ in: uses, revocations, new ids, pruned ids. */
  ghost predicate Later(was: Rows, now: Rows) {
    forall id :: id in was && id in now ==>
      && now[id] == was[id].(revokedAt := now[id].revokedAt, lastUsedAt := now[id].lastUsedAt)
      && (was[id].revokedAt.Some? ==> now[id].revokedAt == was[id].revokedAt)
  }

  lemma StepIsLater(hasher: Hasher, w: World, op: Op)
    requires op.Create? || op.Rotate? ==> op.draw.credentialId !in w.rows
    ensures Later(w.rows, Apply(hasher, w, op).rows)
  {
    if op.Rotate? && Completes(hasher, w, op) {
      var c := Minted(hasher, w.rows, op).value.credential;
      assert Later(w.rows, w.rows[c.credentialId := c]);
    }
  }

  lemma StepAddsOnlyDrawn(hasher: Hasher, w: World, op: Op)
    ensures Apply(hasher, w, op).rows.Keys <= w.rows.Keys + Draws(op)
  {
  }

  /** A row only ever gains a revocation date and a last use; a date, once there,
      is never rewritten, and no id comes back after it was pruned. */
  lemma {:induction false} RowsOnlyAge(hasher: Hasher, past: seq<Op>, ops: seq<Op>)
    requires past <= ops && History(hasher, ops)
    ensures Later(Run(hasher, past).rows, Run(hasher, ops).rows)
    ensures forall id :: id in Drawn(past) && id !in Run(hasher, past).rows ==> id !in Run(hasher, ops).rows
    decreases |ops|
  {
    if |past| == |ops| {
      assert past == ops;
    } else {
      var past', op := ops[..|ops| - 1], ops[|ops| - 1];
      var w := Run(hasher, past');
      RowsOnlyAge(hasher, past, past');
      OnlyDrawnIds(hasher, past);
      OnlyDrawnIds(hasher, past');
      DrawnGrows(past, past');
      StepIsLater(hasher, w, op);
      StepAddsOnlyDrawn(hasher, w, op);
    }
  }

  lemma {:induction false} DrawnGrows(past: seq<Op>, ops: seq<Op>)
    requires past <= ops
    ensures Drawn(past) <= Drawn(ops)
  {
    if |past| < |ops| {
      DrawnGrows(past, ops[..|ops| - 1]);
    } else {
      assert past == ops;
    }
  }

  lemma {:induction false} OnlyDrawnIds(hasher: Hasher, ops: seq<Op>)
    ensures Run(hasher, ops).rows.Keys <= Drawn(ops)
    ensures Keyed(Run(hasher, ops).rows)
  {
    TrailRebuildsTable(hasher, ops);
    if ops != [] {
      OnlyDrawnIds(hasher, ops[..|ops| - 1]);
      StepAddsOnlyDrawn(hasher, Run(hasher, ops[..|ops| - 1]), ops[|ops| - 1]);
    }
  }

  // ---- pruning takes what was retired, and nothing else

  /** A prune that completes removes exactly the credentials that were revoked before
      the cutoff, or were never revoked and have expired, before the cutoff too. */
  lemma PruneRemovesTheRetired(hasher: Hasher, w: World, op: Op)
    requires op.Prune? && Keyed(w.rows) && Completes(hasher, w, op)
    ensures var next := Apply(hasher, w, op);
            && (forall id :: id in next.rows ==> id in w.rows && next.rows[id] == w.rows[id])
            && forall id :: id in w.rows ==>
                 (id !in next.rows <==>
                   if w.rows[id].revokedAt.Some? then w.rows[id].revokedAt.value < op.olderThan
                   else w.rows[id].expiresAt.Some? && w.rows[id].expiresAt.value <= op.now
                        && w.rows[id].expiresAt.value < op.olderThan)
  {
    forall id | id in w.rows
      ensures id in Ids(op.doomed) <==> Retired(w.rows[id], op.olderThan, op.now)
    {
      if Retired(w.rows[id], op.olderThan, op.now) {
        var i :| 0 <= i < |op.doomed| && op.doomed[i] == w.rows[id];
        assert op.doomed[i].credentialId == id;
      }
    }
  }

  // ---- the stored verifier is that of the drawn secret

  /** Operation `i` drew this id. */
  predicate DrewId(ops: seq<Op>, i: nat, id: string) {
    i < |ops| && (ops[i].Create? || ops[i].Rotate?) && ops[i].draw.credentialId == id
  }

  lemma {:induction false} VerifierIsOfDraw(hasher: Hasher, ops: seq<Op>, id: string) returns (i: nat)
    requires History(hasher, ops) && id in Run(hasher, ops).rows
    ensures DrewId(ops, i, id) && hasher.pepper != ""
    ensures Run(hasher, ops).rows[id].verifier == hasher.hmac(hasher.pepper, ops[i].draw.secret)
  {
    var n := |ops| - 1;
    var past, op := ops[..n], ops[n];
    if DrewId(ops, n, id) {
      i := n;
      OnlyDrawnIds(hasher, past);
      DrawnVerifier(hasher, Run(hasher, past), op);
    } else {
      OnlyDrawnIds(hasher, past);
      StepIsLater(hasher, Run(hasher, past), op);
      i := VerifierIsOfDraw(hasher, past, id);
    }
  }

  lemma DrawnVerifier(hasher: Hasher, w: World, op: Op)
    requires op.Create? || op.Rotate?
    requires Completes(hasher, w, op)
    ensures op.draw.credentialId in Apply(hasher, w, op).rows && hasher.pepper != ""
    ensures Apply(hasher, w, op).rows[op.draw.credentialId].verifier == hasher.hmac(hasher.pepper, op.draw.secret)
  {
  }

  /** An id is drawn once. */
  lemma {:induction false} DrawnOnce(hasher: Hasher, ops: seq<Op>, i: nat, j: nat, id: string)
    requires History(hasher, ops) && DrewId(ops, i, id) && DrewId(ops, j, id)
    ensures i == j
    decreases |ops|
  {
    var n := |ops| - 1;
    var past := ops[..n];
    if i < n && j < n {
      DrawnOnce(hasher, past, i, j, id);
    } else if i < n {
      DrewMeansDrawn(past, i, id);
    } else if j < n {
      DrewMeansDrawn(past, j, id);
    }
  }

  lemma {:induction false} DrewMeansDrawn(ops: seq<Op>, i: nat, id: string)
    requires DrewId(ops, i, id)
    ensures id in Drawn(ops)
  {
    if i < |ops| - 1 {
      DrewMeansDrawn(ops[..|ops| - 1], i, id);
    }
  }

  // ---- rotation keeps the holder

  /** Whose creation a drawn id goes back to, along rotations. */
  function Origin(ops: seq<Op>, id: string): Option<Holder> {
    if ops == [] then None
    else
      var past, op := ops[..|ops| - 1], ops[|ops| - 1];
      if op.Create? && op.draw.credentialId == id then Some(op.holder)
      else if op.Rotate? && op.draw.credentialId == id then Origin(past, op.id)
      else Origin(past, id)
  }

  /** Along any chain of rotations, however long, with revocations and prunings in
      between, the holder is the one the first credential was created for. */
  lemma {:induction false} RotationKeepsHolder(hasher: Hasher, ops: seq<Op>, id: string)
    requires History(hasher, ops) && id in Run(hasher, ops).rows
    ensures Origin(ops, id) == Some(Run(hasher, ops).rows[id].holder)
  {
    var n := |ops| - 1;
    var past, op := ops[..n], ops[n];
    var was := Run(hasher, past);
    OnlyDrawnIds(hasher, past);
    if (op.Create? || op.Rotate?) && op.draw.credentialId == id {
      if op.Rotate? {
        RotationKeepsHolder(hasher, past, op.id);
      }
    } else {
      StepIsLater(hasher, was, op);
      assert id in was.rows;
      RotationKeepsHolder(hasher, past, id);
    }
  }

  /** A rotation that completes adds exactly the replacement and, if asked,
      revokes the original unless it was revoked already; one that does not,
      does nothing. */
  lemma RotationIsAllOrNothing(hasher: Hasher, w: World, op: Op)
    requires op.Rotate? && Keyed(w.rows)
    ensures var next := Apply(hasher, w, op);
            if Completes(hasher, w, op) then
              && next.rows.Keys == w.rows.Keys + {op.draw.credentialId} && op.draw.credentialId !in w.rows
              && next.rows[op.draw.credentialId].holder == w.rows[op.id].holder
              && next.rows[op.draw.credentialId].rotatedFrom == Some(op.id)
              && next.rows[op.draw.credentialId].revokedAt == None
              && next.rows[op.id].revokedAt ==
                   (if op.revokePrevious && w.rows[op.id].revokedAt == None then Some(op.when) else w.rows[op.id].revokedAt)
              && (forall id :: id in w.rows && id != op.id ==> next.rows[id] == w.rows[id])
            else next == w
  {
  }
}
