/** The audit trail of credentials as it is stored and read back: every payload
    passes through redaction on its way to disk (security/credential_service.py,
    security/audit.py, observability/redaction.py). */
module CredentialTrail {
  import opened Common
  import opened Text
  import opened Tokens
  import opened Credentials
  import opened CredentialHistory
  import opened Redaction

  // ---- payloads

  datatype Kind = KindCreated | KindRotated | KindRevoked | KindPruned

  /** An audit row: the event type is a column, the rest is in the payload. */
  datatype Row = Row(kind: Kind, payload: Value)

  const SCOPES: seq<Scope> := [ApprovalGrant, ApprovalRead, AuditRead, SystemRead, TaskCreate, TaskRead]

  function ScopeName(s: Scope): string {
    match s
    case ApprovalGrant => "approval:grant"
    case ApprovalRead => "approval:read"
    case AuditRead => "audit:read"
    case SystemRead => "system:read"
    case TaskCreate => "task:create"
    case TaskRead => "task:read"
  }

  function TypeName(t: ActorType): string {
    match t
    case Human => "human"
    case Service => "service"
    case Node => "node"
    case System => "system"
  }

  function TypeOf(name: string): Option<ActorType> {
    if name == "human" then Some(Human)
    else if name == "service" then Some(Service)
    else if name == "node" then Some(Node)
    else if name == "system" then Some(System)
    else None
  }

  /** The names of the scopes held, in alphabetical order. */
  function ScopeNames(scopes: set<Scope>, among: seq<Scope>): seq<Value> {
    if among == [] then []
    else (if among[0] in scopes then [Str(ScopeName(among[0]))] else []) + ScopeNames(scopes, among[1..])
  }

  function ScopesIn(names: seq<Value>): set<Scope> {
    set s | s in SCOPES && Str(ScopeName(s)) in names
  }

  function Field(key: string, value: Value): Item {
    Item(Name(key), value)
  }

  /** `audit_fields()` and the scopes. */
  function AuditFields(f: Fields): seq<Item> {
    [Field("credential_id", Str(f.credentialId)), Field("actor_id", Str(f.actorId)),
     Field("actor_type", Str(TypeName(f.actorType))), Field("scopes", List(ScopeNames(f.scopes, SCOPES)))]
  }

  function KindOf(e: Entry): Kind {
    match e
    case CredentialCreated(_) => KindCreated
    case CredentialRotated(_, _, _) => KindRotated
    case CredentialRevoked(_, _, _) => KindRevoked
    case CredentialPruned(_) => KindPruned
  }

  /** What else `_record` is given. */
  function Extra(e: Entry): seq<Item> {
    match e
    case CredentialCreated(_) => []
    case CredentialRotated(_, from, revoked) => [Field("rotated_from", Str(from)), Field("previous_revoked", Flag(revoked))]
    case CredentialRevoked(_, at, byRotation) =>
      [Field("revoked_at", Number(at))] + if byRotation then [Field("reason", Str("rotation"))] else []
    case CredentialPruned(_) => []
  }

  function Payload(e: Entry): seq<Item> {
    AuditFields(e.fields) + Extra(e)
  }

  /** `AuditLog.record`. */
  function Store(host: Host, e: Entry): Row {
    Row(KindOf(e), host.Redact(Mapping(Payload(e)), 0))
  }

  // ---- reading back

  function ReadFields(items: seq<Item>): Option<Fields> {
    match (Get(items, "credential_id"), Get(items, "actor_id"), Get(items, "actor_type"), Get(items, "scopes"))
    case (Some(Str(id)), Some(Str(actor)), Some(Str(name)), Some(List(names))) =>
      if TypeOf(name) == None then None else Some(Fields(id, actor, TypeOf(name).value, ScopesIn(names)))
    case _ => None
  }

  function Read(row: Row): Option<Entry> {
    if !row.payload.Mapping? then None
    else
      var items := row.payload.entries;
      var fields := ReadFields(items);
      if fields == None then None
      else
        match row.kind
        case KindCreated => Some(CredentialCreated(fields.value))
        case KindPruned => Some(CredentialPruned(fields.value))
        case KindRotated => (
          match (Get(items, "rotated_from"), Get(items, "previous_revoked"))
          case (Some(Str(from)), Some(Flag(revoked))) => Some(CredentialRotated(fields.value, from, revoked))
          case _ => None
        )
        case KindRevoked => (
          match Get(items, "revoked_at")
          case Some(Number(at)) => Some(CredentialRevoked(fields.value, at, Get(items, "reason") == Some(Str("rotation"))))
          case _ => None
        )
  }

  /** Fold the stored rows; a row that cannot be read is passed over. */
  function Rebuilt(host: Host, audit: seq<Entry>): map<string, Line> {
    if audit == [] then map[]
    else
      var lines := Rebuilt(host, audit[..|audit| - 1]);
      match Read(Store(host, audit[|audit| - 1]))
      case None => lines
      case Some(e) => Replayed(lines, e)
  }

  // ---- what redaction does to them

  const KEYS: seq<string> := [
    "credential_id", "actor_id", "actor_type", "scopes", "rotated_from", "previous_revoked", "revoked_at", "reason"]

  /** Lower-casing leaves lower-case keys alone, and no pattern matches the fixed
      names or a generated id: true of the host, whatever else it masks. */
  ghost predicate Ordinary(host: Host) {
    && (forall k :: k in KEYS ==> host.lower(k) == k)
    && (forall s: Scope :: host.redactText(ScopeName(s)) == ScopeName(s))
    && (forall t: ActorType :: host.redactText(TypeName(t)) == TypeName(t))
    && host.redactText("rotation") == "rotation"
    && (forall id :: WellFormedId(id) ==> host.redactText(id) == id)
  }

  /** A part with a letter the key does not have is not in the key. */
  lemma HoldsNoPart(key: string, letter: seq<nat>)
    requires |letter| == |SENSITIVE_KEY_PARTS|
    requires forall k :: 0 <= k < |letter| ==>
               letter[k] < |SENSITIVE_KEY_PARTS[k]| && SENSITIVE_KEY_PARTS[k][letter[k]] !in key
    ensures forall k :: 0 <= k < |SENSITIVE_KEY_PARTS| ==> !Contains(key, SENSITIVE_KEY_PARTS[k])
  {
    forall k | 0 <= k < |SENSITIVE_KEY_PARTS| ensures !Contains(key, SENSITIVE_KEY_PARTS[k]) {
      var part := SENSITIVE_KEY_PARTS[k];
      forall i: nat | i <= |key| ensures !OccursAt(key, part, i) {
        assert forall j :: 0 <= j < |key[i..]| ==> key[i..][j] in key;
      }
    }
  }

  predicate HasNoPart(key: string) {
    forall k :: 0 <= k < |SENSITIVE_KEY_PARTS| ==> !Contains(key, SENSITIVE_KEY_PARTS[k])
  }

  lemma ActorIdIsOpen()
    ensures HasNoPart("actor_id")
  {
    HoldsNoPart("actor_id", [1, 1, 1, 1, 3, 2, 0, 0, 0, 0, 0, 0, 2]);
  }

  lemma ActorTypeIsOpen()
    ensures HasNoPart("actor_type")
  {
    HoldsNoPart("actor_type", [2, 2, 1, 1, 3, 3, 2, 2, 2, 0, 0, 0, 2]);
  }

  lemma ScopesIsOpen()
    ensures HasNoPart("scopes")
  {
    HoldsNoPart("scopes", [0, 0, 0, 0, 3, 1, 1, 1, 1, 3, 4, 1, 0]);
  }

  lemma RevokedAtIsOpen()
    ensures HasNoPart("revoked_at")
  {
    HoldsNoPart("revoked_at", [1, 1, 1, 1, 0, 0, 0, 0, 0, 0, 0, 0, 4]);
  }

  lemma PreviousRevokedIsOpen()
    ensures HasNoPart("previous_revoked")
  {
    HoldsNoPart("previous_revoked", [0, 0, 0, 0, 0, 0, 1, 1, 4, 2, 6, 2, 0]);
  }

  lemma ReasonIsOpen()
    ensures HasNoPart("reason")
  {
    HoldsNoPart("reason", [1, 1, 1, 1, 0, 0, 0, 0, 0, 2, 4, 1, 0]);
  }

  /** None of the keys of a lifecycle payload is sensitive. */
  lemma KeysAreOpen(host: Host, key: string)
    requires Ordinary(host) && key in KEYS
    ensures !host.IsSensitiveKey(key)
  {
    ActorIdIsOpen();
    ActorTypeIsOpen();
    ScopesIsOpen();
    RevokedAtIsOpen();
    PreviousRevokedIsOpen();
    ReasonIsOpen();
    hide Contains;
    assert host.lower(key) == key;
    assert key in NON_SECRET_KEYS || HasNoPart(key);
  }

  /** An entry about generated ids; that of every history is. */
  predicate EntryOk(e: Entry) {
    WellFormedId(e.fields.credentialId) && (e.CredentialRotated? ==> WellFormedId(e.rotatedFrom))
  }

  function Masked(host: Host, f: Fields): Fields {
    f.(actorId := host.RedactString(f.actorId))
  }

  function MaskedEntry(host: Host, e: Entry): Entry {
    match e
    case CredentialCreated(f) => CredentialCreated(Masked(host, f))
    case CredentialRotated(f, from, revoked) => CredentialRotated(Masked(host, f), from, revoked)
    case CredentialRevoked(f, at, byRotation) => CredentialRevoked(Masked(host, f), at, byRotation)
    case CredentialPruned(f) => CredentialPruned(Masked(host, f))
  }

  predicate PayloadItem(item: Item) {
    item.key.Name? && item.key.text in KEYS && item.value != Null
  }

  lemma PayloadKeys(e: Entry)
    ensures DistinctKeys(Payload(e))
    ensures forall i :: 0 <= i < |Payload(e)| ==> PayloadItem(Payload(e)[i])
  {
  }

  predicate NamesScope(v: Value) {
    exists s: Scope :: v == Str(ScopeName(s))
  }

  lemma {:induction false} ScopeNamesAre(scopes: set<Scope>, among: seq<Scope>)
    ensures forall s :: Str(ScopeName(s)) in ScopeNames(scopes, among) <==> s in scopes && s in among
    ensures forall i :: 0 <= i < |ScopeNames(scopes, among)| ==> NamesScope(ScopeNames(scopes, among)[i])
  {
    if among != [] {
      ScopeNamesAre(scopes, among[1..]);
      assert NamesScope(Str(ScopeName(among[0])));
      forall s: Scope, t: Scope ensures ScopeName(s) == ScopeName(t) ==> s == t {
      }
    }
  }

  lemma FixedTextStands(host: Host, text: string)
    requires host.redactText(text) == text && |text| <= MAX_STRING_LENGTH
    ensures host.Redact(Str(text), 1) == Str(text) && host.Redact(Str(text), 2) == Str(text)
  {
  }

  lemma ScopesStand(host: Host, scopes: set<Scope>)
    requires Ordinary(host)
    ensures host.Redact(List(ScopeNames(scopes, SCOPES)), 1) == List(ScopeNames(scopes, SCOPES))
  {
    var names := ScopeNames(scopes, SCOPES);
    ScopeNamesAre(scopes, SCOPES);
    forall i | 0 <= i < |names| ensures host.Redact(names[i], 2) == names[i] {
      assert NamesScope(names[i]);
      var s :| names[i] == Str(ScopeName(s));
      FixedTextStands(host, ScopeName(s));
    }
    assert host.Redact(List(names), 1).items == names;
  }

  lemma FieldsStand(host: Host, f: Fields)
    requires Ordinary(host) && WellFormedId(f.credentialId)
    ensures Stand(host, AuditFields(f), AuditFields(Masked(host, f)))
  {
    FixedTextStands(host, f.credentialId);
    FixedTextStands(host, TypeName(f.actorType));
    ScopesStand(host, f.scopes);
  }

  lemma ExtrasStand(host: Host, e: Entry)
    requires Ordinary(host) && EntryOk(e)
    ensures Stand(host, Extra(e), Extra(e))
  {
    if e.CredentialRotated? {
      FixedTextStands(host, e.rotatedFrom);
    }
    FixedTextStands(host, "rotation");
  }

  lemma ItemStands(host: Host, item: Item, masked: Item)
    requires Ordinary(host) && PayloadItem(item)
    requires masked.key == item.key && host.Redact(item.value, 1) == masked.value
    ensures Item(Name(item.key.text), host.RedactItem(item, 0)) == masked
  {
    KeysAreOpen(host, item.key.text);
  }

  /** The items of a payload, redacted: each in its place, each with its own value. */
  predicate Stand(host: Host, items: seq<Item>, masked: seq<Item>) {
    && |items| == |masked|
    && forall i :: 0 <= i < |items| ==>
         host.Redact(items[i].value, 1) == masked[i].value && items[i].key == masked[i].key
  }

  lemma StandTogether(host: Host, a: seq<Item>, a': seq<Item>, b: seq<Item>, b': seq<Item>)
    requires Stand(host, a, a') && Stand(host, b, b')
    ensures Stand(host, a + b, a' + b')
  {
    hide Host.Redact;
  }

  lemma ItemsStand(host: Host, items: seq<Item>, masked: seq<Item>)
    requires Ordinary(host) && DistinctKeys(items) && Stand(host, items, masked)
    requires forall i :: 0 <= i < |items| ==> PayloadItem(items[i])
    ensures host.RedactEntries(items, 0) == masked
  {
    hide Host.Redact, Host.RedactItem, Host.RedactEntries, Ordinary, PayloadItem, DistinctKeys;
    DistinctKeysKeepTheirPlaces(host, items, 0);
    forall i | 0 <= i < |items| ensures host.RedactEntries(items, 0)[i] == masked[i] {
      ItemStands(host, items[i], masked[i]);
    }
  }

  /** On its way to disk a lifecycle payload loses nothing but, where a pattern
      matches, the actor id. */
  lemma RedactionMasksTheActor(host: Host, e: Entry)
    requires Ordinary(host) && EntryOk(e)
    ensures host.Redact(Mapping(Payload(e)), 0) == Mapping(Payload(MaskedEntry(host, e)))
  {
    PayloadKeys(e);
    FieldsStand(host, e.fields);
    ExtrasStand(host, e);
    hide AuditFields, Extra, Host.RedactItem, Host.RedactEntries, Ordinary, DistinctKeys;
    StandTogether(host, AuditFields(e.fields), AuditFields(Masked(host, e.fields)), Extra(e), Extra(e));
    MaskingKeepsExtra(host, e);
    ItemsStand(host, Payload(e), Payload(MaskedEntry(host, e)));
  }

  lemma MaskingKeepsExtra(host: Host, e: Entry)
    ensures MaskedEntry(host, e).fields == Masked(host, e.fields) && Extra(MaskedEntry(host, e)) == Extra(e)
  {
  }

  // ---- reading undoes writing

  lemma {:induction false} GetAt(items: seq<Item>, i: nat)
    requires DistinctKeys(items) && i < |items|
    ensures Get(items, items[i].key.text) == Some(items[i].value)
  {
    if i > 0 {
      GetAt(items[1..], i - 1);
    }
  }

  lemma {:induction false} GetNone(items: seq<Item>, key: string)
    requires forall i :: 0 <= i < |items| ==> items[i].key.text != key
    ensures Get(items, key) == None
  {
    if items != [] {
      GetNone(items[1..], key);
    }
  }

  lemma FieldsAreGot(items: seq<Item>, f: Fields)
    requires AuditFields(f) <= items && DistinctKeys(items)
    ensures Get(items, "credential_id") == Some(Str(f.credentialId))
    ensures Get(items, "actor_id") == Some(Str(f.actorId))
    ensures Get(items, "actor_type") == Some(Str(TypeName(f.actorType)))
    ensures Get(items, "scopes") == Some(List(ScopeNames(f.scopes, SCOPES)))
  {
    assert items[0] == AuditFields(f)[0] && items[1] == AuditFields(f)[1];
    assert items[2] == AuditFields(f)[2] && items[3] == AuditFields(f)[3];
    hide Get;
    GetAt(items, 0);
    GetAt(items, 1);
    GetAt(items, 2);
    GetAt(items, 3);
  }

  lemma AllScopes()
    ensures forall s: Scope :: s in SCOPES
  {
    forall s: Scope ensures s in SCOPES {
      match s
      case ApprovalGrant => assert s == SCOPES[0];
      case ApprovalRead => assert s == SCOPES[1];
      case AuditRead => assert s == SCOPES[2];
      case SystemRead => assert s == SCOPES[3];
      case TaskCreate => assert s == SCOPES[4];
      case TaskRead => assert s == SCOPES[5];
    }
  }

  lemma ScopesReadBack(scopes: set<Scope>)
    ensures ScopesIn(ScopeNames(scopes, SCOPES)) == scopes
  {
    hide ScopeName, ScopeNames;
    AllScopes();
    ScopeNamesAre(scopes, SCOPES);
  }

  lemma FieldsReadBack(e: Entry)
    ensures ReadFields(Payload(e)) == Some(e.fields)
  {
    PayloadKeys(e);
    FieldsAreGot(Payload(e), e.fields);
    ScopesReadBack(e.fields.scopes);
    hide Payload, Get, ScopeNames, ScopesIn, AuditFields;
    assert TypeOf(TypeName(e.fields.actorType)) == Some(e.fields.actorType);
  }

  lemma ReadUndoesPayload(e: Entry)
    ensures Read(Row(KindOf(e), Mapping(Payload(e)))) == Some(e)
  {
    var items := Payload(e);
    PayloadKeys(e);
    FieldsReadBack(e);
    match e
    case CredentialCreated(_) =>
    case CredentialPruned(_) =>
    case CredentialRotated(_, _, _) =>
      GetAt(items, 4);
      GetAt(items, 5);
    case CredentialRevoked(_, _, byRotation) =>
      GetAt(items, 4);
      if byRotation {
        GetAt(items, 5);
      } else {
        GetNone(items, "reason");
      }
  }

  /** What is read back from disk is the entry with its actor id masked. */
  lemma StoredReadsMasked(host: Host, e: Entry)
    requires Ordinary(host) && EntryOk(e)
    ensures Read(Store(host, e)) == Some(MaskedEntry(host, e))
  {
    RedactionMasksTheActor(host, e);
    ReadUndoesPayload(MaskedEntry(host, e));
  }

  // ---- the fold of what is stored

  function MaskedLines(host: Host, lines: map<string, Line>): map<string, Line> {
    map id | id in lines :: lines[id].(fields := Masked(host, lines[id].fields))
  }

  lemma ReplayMasks(host: Host, lines: map<string, Line>, e: Entry)
    ensures Replayed(MaskedLines(host, lines), MaskedEntry(host, e)) == MaskedLines(host, Replayed(lines, e))
  {
  }

  predicate AuditOk(audit: seq<Entry>) {
    forall i :: 0 <= i < |audit| ==> EntryOk(audit[i])
  }

  lemma {:induction false} RebuiltIsMasked(host: Host, audit: seq<Entry>)
    requires Ordinary(host) && AuditOk(audit)
    ensures Rebuilt(host, audit) == MaskedLines(host, Replay(audit))
  {
    if audit != [] {
      var past, e := audit[..|audit| - 1], audit[|audit| - 1];
      RebuiltIsMasked(host, past);
      StoredReadsMasked(host, e);
      ReplayMasks(host, Replay(past), e);
    }
  }

  predicate RowsOk(rows: Rows) {
    forall id :: id in rows ==> WellFormedId(id) && rows[id].credentialId == id && HolderValid(rows[id].holder)
  }

  lemma AuditOkAdds(a: seq<Entry>, b: seq<Entry>)
    requires AuditOk(a) && AuditOk(b)
    ensures AuditOk(a + b)
  {
  }

  lemma {:induction false} PruningsAreOk(rows: Rows, cs: seq<Credential>)
    requires RowsOk(rows) && forall i :: 0 <= i < |cs| ==> cs[i].credentialId in rows
    ensures AuditOk(Prunings(cs))
  {
    if cs != [] {
      PruningsAreOk(rows, cs[..|cs| - 1]);
    }
  }

  lemma MintedIsOk(hasher: Hasher, rows: Rows, op: Op)
    requires RowsOk(rows) && (op.Create? || op.Rotate?) && op.draw.WellFormed() && Minted(hasher, rows, op).Ok?
    ensures var c := Minted(hasher, rows, op).value.credential;
            c.credentialId == op.draw.credentialId && WellFormedId(c.credentialId) && RowsOk(rows[c.credentialId := c])
  {
  }

  lemma StepIsOk(hasher: Hasher, w: World, op: Op)
    requires RowsOk(w.rows) && AuditOk(w.audit) && Completes(hasher, w, op)
    requires op.Create? || op.Rotate? ==> op.draw.WellFormed()
    ensures RowsOk(Apply(hasher, w, op).rows) && AuditOk(Apply(hasher, w, op).audit)
  {
    if op.Prune? {
      PruningsAreOk(w.rows, op.doomed);
      AuditOkAdds(w.audit, Prunings(op.doomed));
    } else if op.Create? || op.Rotate? {
      MintedIsOk(hasher, w.rows, op);
      hide WellFormedId, HolderValid, IssueCredential;
    }
  }

  /** In every history the ids are generated ones and the holders within bounds. */
  lemma {:induction false} HistoriesAreOk(hasher: Hasher, ops: seq<Op>)
    requires History(hasher, ops)
    ensures RowsOk(Run(hasher, ops).rows) && AuditOk(Run(hasher, ops).audit)
  {
    if ops != [] {
      HistoriesAreOk(hasher, ops[..|ops| - 1]);
      StepIsOk(hasher, Run(hasher, ops[..|ops| - 1]), ops[|ops| - 1]);
    }
  }

  /** No live credential has an actor id that a pattern matches. */
  predicate ActorsUnmasked(host: Host, rows: Rows) {
    forall id :: id in rows ==> host.redactText(rows[id].holder.actorId) == rows[id].holder.actorId
  }

  /** After every history, the trail as it is stored rebuilds the live table, but
      for the actor ids that redaction masked: it rebuilds it exactly if and only
      if it masked none of those still live. */
  lemma StoredTrailRebuildsTable(host: Host, hasher: Hasher, ops: seq<Op>)
    requires Ordinary(host) && History(hasher, ops)
    ensures var w := Run(hasher, ops);
            && Rebuilt(host, w.audit) == MaskedLines(host, View(w.rows))
            && (Rebuilt(host, w.audit) == View(w.rows) <==> ActorsUnmasked(host, w.rows))
  {
    var w := Run(hasher, ops);
    TrailRebuildsTable(hasher, ops);
    HistoriesAreOk(hasher, ops);
    RebuiltIsMasked(host, w.audit);
    MaskingShowsInView(host, w.rows);
  }

  lemma MaskingShowsInView(host: Host, rows: Rows)
    requires RowsOk(rows)
    ensures MaskedLines(host, View(rows)) == View(rows) <==> ActorsUnmasked(host, rows)
  {
    var lines := View(rows);
    forall id | id in rows
      ensures MaskedLines(host, lines)[id] == lines[id] <==>
                host.redactText(rows[id].holder.actorId) == rows[id].holder.actorId
    {
      UnmaskedIsUntouched(host, rows[id].holder.actorId);
    }
    if MaskedLines(host, lines) == lines {
      forall id | id in rows ensures MaskedLines(host, lines)[id] == lines[id] {
      }
    }
  }

  lemma UnmaskedIsUntouched(host: Host, text: string)
    requires |text| <= MAX_STRING_LENGTH
    ensures host.RedactString(text) == text <==> host.redactText(text) == text
  {
  }

  /** An actor id in the shape of an access key is taken for one: `create` accepts
      it, and the stored trail does not say whose credential it is. */
  lemma MaskedActorIsNotRebuilt(host: Host, hasher: Hasher, draw: Draw)
    requires Ordinary(host) && host.redactText("AKIA0123456789ABCDEF") == REDACTED
    requires draw.WellFormed() && hasher.ComputeVerifier(draw.secret).Ok?
    requires 1 <= |hasher.ComputeVerifier(draw.secret).value| <= 128
    ensures var ops := [Op.Create(draw, Holder("AKIA0123456789ABCDEF", Service, None, {TaskRead}), None, 0)];
            && History(hasher, ops)
            && draw.credentialId in Run(hasher, ops).rows
            && Rebuilt(host, Run(hasher, ops).audit) != View(Run(hasher, ops).rows)
  {
    var holder := Holder("AKIA0123456789ABCDEF", Service, None, {TaskRead});
    var op := Op.Create(draw, holder, None, 0);
    var ops := [op];
    assert ops[..0] == [];
    ParseUndoesFormat(draw.credentialId, draw.secret);
    PatternIsExactButForNewlines(draw.credentialId);
    assert Completes(hasher, Run(hasher, []), op);
    assert Run(hasher, ops) == Apply(hasher, Run(hasher, []), op);
    assert Run(hasher, ops).rows[draw.credentialId].holder == holder;
    StoredTrailRebuildsTable(host, hasher, ops);
  }
}
