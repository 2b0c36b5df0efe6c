/** Turning an Authorization header into an actor, and what that means over the
    life of a credential (security/authn.py, interface/api.py). */
module Authn {
  import opened Common
  import opened Text
  import opened Tokens
  import opened Credentials
  import opened CredentialHistory

  datatype Reason = MissingCredential | MalformedCredential | UnknownCredential | NoCredentialsConfigured

  /** For the operator only. */
  datatype Detail = NotACredentialToken | NoSuchCredential | SecretMismatch | WasExpired | WasRevoked

  datatype Refusal = Refusal(reason: Reason, detail: Option<Detail>)

  type Answer = Result<Actor, Refusal>

  function Unknown(detail: Option<Detail>): Answer {
    Err(Refusal(UnknownCredential, detail))
  }

  function HeaderRefusal(fault: HeaderFault): Answer {
    Err(Refusal(if fault.Missing? then MissingCredential else MalformedCredential, None))
  }

  // ---- tokens fixed by configuration

  datatype TokenCredential = TokenCredential(token: string, holder: Holder)

  /** The last configured token with this digest. */
  function LastMatch(creds: seq<TokenCredential>, sha: string -> string, digest: string): Option<TokenCredential> {
    if creds == [] then None
    else
      var last := creds[|creds| - 1];
      if sha(last.token) == digest then Some(last) else LastMatch(creds[..|creds| - 1], sha, digest)
  }

  lemma {:induction false} LastMatchIsLast(creds: seq<TokenCredential>, sha: string -> string, digest: string)
    ensures var m := LastMatch(creds, sha, digest);
            if m.Some? then
              exists i :: 0 <= i < |creds| && creds[i] == m.value && sha(creds[i].token) == digest
                          && forall j :: i < j < |creds| ==> sha(creds[j].token) != digest
            else forall j :: 0 <= j < |creds| ==> sha(creds[j].token) != digest
  {
    if creds != [] {
      var n := |creds| - 1;
      if sha(creds[n].token) != digest {
        LastMatchIsLast(creds[..n], sha, digest);
        assert forall j :: 0 <= j < n ==> creds[..n][j] == creds[j];
      }
    }
  }

  function StaticAuthenticate(creds: seq<TokenCredential>, sha: string -> string, header: Option<string>): Answer {
    var presented := ParseBearer(header);
    if presented.Err? then HeaderRefusal(presented.error)
    else if creds == [] then Err(Refusal(NoCredentialsConfigured, None))
    else
      var m := LastMatch(creds, sha, sha(presented.value));
      if m.Some? then Ok(Actor(m.value.holder, None)) else Unknown(None)
  }

  class StaticTokenAuthenticator {
    const credentials: seq<TokenCredential>
    const sha: string -> string
    const digests: seq<string>

    ghost predicate Valid() {
      digests == seq(|credentials|, i requires 0 <= i < |credentials| => sha(credentials[i].token))
    }

    constructor (credentials: seq<TokenCredential>, sha: string -> string)
      ensures Valid() && this.credentials == credentials && this.sha == sha
    {
      this.credentials, this.sha := credentials, sha;
      digests := seq(|credentials|, i requires 0 <= i < |credentials| => sha(credentials[i].token));
    }

    /** Every configured token is compared, and the last match stands. */
    method Authenticate(header: Option<string>) returns (r: Answer)
      requires Valid()
      ensures r == StaticAuthenticate(credentials, sha, header)
    {
      var presented := ParseBearer(header);
      if presented.Err? {
        return HeaderRefusal(presented.error);
      }
      if credentials == [] {
        return Err(Refusal(NoCredentialsConfigured, None));
      }
      var digest := sha(presented.value);
      var matched: Option<TokenCredential> := None;
      for i := 0 to |credentials|
        invariant matched == LastMatch(credentials[..i], sha, digest)
      {
        assert credentials[..i + 1][..i] == credentials[..i];
        if digest == digests[i] {
          matched := Some(credentials[i]);
        }
      }
      assert credentials[..|credentials|] == credentials;
      if matched == None {
        return Unknown(None);
      }
      return Ok(Actor(matched.value.holder, None));
    }
  }

  // ---- stored credentials

  /** `legacy` is None when there is none; configured with no token it is a list
      of none. */
  datatype Authenticator = Authenticator(hasher: Hasher, sha: string -> string, legacy: Option<seq<TokenCredential>>)
  {
    function Authenticate(rows: Rows, header: Option<string>, now: Time): Answer {
      var presented := ParseBearer(header);
      if presented.Err? then HeaderRefusal(presented.error)
      else
        var parsed := ParseToken(presented.value);
        if parsed.Err? then
          if legacy == None then Unknown(Some(NotACredentialToken))
          else StaticAuthenticate(legacy.value, sha, header)
        else
          var id, secret := parsed.value.credentialId, parsed.value.secret;
          if id !in rows then Unknown(Some(NoSuchCredential))
          else if !hasher.VerifySecret(secret, rows[id].verifier) then Unknown(Some(SecretMismatch))
          else
            match rows[id].StatusAt(now)
            case Active => Ok(rows[id].ToActor())
            case Revoked => Unknown(Some(WasRevoked))
            case Expired => Unknown(Some(WasExpired))
    }
  }

  /** The client cannot tell two answers apart. */
  predicate SameToClient(a: Answer, b: Answer) {
    if a.Ok? then a == b else b.Err? && a.error.reason == b.error.reason
  }

  function ActiveIds(rows: Rows, now: Time): set<string> {
    set id | id in rows && rows[id].UsableAt(now)
  }

  /** Pruning is invisible from then on: every header gets the same answer before
      and after, and the same credentials count as active. */
  lemma PruneIsInvisible(
      auth: Authenticator, rows: Rows, olderThan: Time, now: Time, doomed: seq<Credential>, header: Option<string>, t: Time)
    requires Doomed(rows, olderThan, now, doomed) && now <= t
    ensures SameToClient(auth.Authenticate(rows, header, t), auth.Authenticate(rows - Ids(doomed), header, t))
    ensures ActiveIds(rows, t) == ActiveIds(rows - Ids(doomed), t)
  {
    forall id | id in rows && id in Ids(doomed) ensures !rows[id].UsableAt(t) {
      StatusOnlyGetsWorse(rows[id], now, t);
    }
  }

  // ---- the life of one credential

  /** The operation withdraws this credential. */
  predicate Withdraws(op: Op, id: string) {
    (op.Revoke? && op.id == id) || (op.Rotate? && op.id == id && op.revokePrevious)
  }

  predicate Withdrawn(ops: seq<Op>, id: string) {
    ops != [] && (Withdrawn(ops[..|ops| - 1], id) || Withdraws(ops[|ops| - 1], id))
  }

  /** No prune in the history looked further ahead than `t`. */
  predicate PrunedBy(ops: seq<Op>, t: Time) {
    ops != [] ==>
      && PrunedBy(ops[..|ops| - 1], t)
      && (ops[|ops| - 1].Prune? ==> ops[|ops| - 1].now <= t)
  }

  /** Operation `i` issued `issued`. */
  predicate IssuedAt(hasher: Hasher, ops: seq<Op>, i: nat, issued: Issued) {
    && i < |ops|
    && (ops[i].Create? || ops[i].Rotate?)
    && Minted(hasher, Run(hasher, ops[..i]).rows, ops[i]) == Ok(issued)
  }

  /** What the table says of a credential once issued, whatever came after. */
  predicate Kept(rows: Rows, ops: seq<Op>, c: Credential, t: Time) {
    var id := c.credentialId;
    if id in rows then
      && rows[id] == c.(revokedAt := rows[id].revokedAt, lastUsedAt := rows[id].lastUsedAt)
      && (rows[id].revokedAt.Some? <==> Withdrawn(ops, id))
    else Withdrawn(ops, id) || (c.expiresAt.Some? && c.expiresAt.value <= t)
  }

  lemma {:induction false} UndrawnIsNotWithdrawn(hasher: Hasher, ops: seq<Op>, id: string)
    requires History(hasher, ops) && id !in Drawn(ops)
    ensures !Withdrawn(ops, id)
  {
    if ops != [] {
      var past := ops[..|ops| - 1];
      UndrawnIsNotWithdrawn(hasher, past, id);
      OnlyDrawnIds(hasher, past);
    }
  }

  lemma KeptByStep(hasher: Hasher, past: seq<Op>, op: Op, c: Credential, t: Time)
    requires var w := Run(hasher, past); Keyed(w.rows) && Kept(w.rows, past, c, t) && Completes(hasher, w, op)
    requires c.credentialId !in Draws(op) && (op.Prune? ==> op.now <= t)
    ensures Kept(Apply(hasher, Run(hasher, past), op).rows, past + [op], c, t)
  {
    var ops := past + [op];
    assert ops[..|ops| - 1] == past && ops[|ops| - 1] == op;
    assert Withdrawn(ops, c.credentialId) <==> Withdrawn(past, c.credentialId) || Withdraws(op, c.credentialId);
  }

  lemma {:induction false} IssuedIsKept(hasher: Hasher, ops: seq<Op>, i: nat, issued: Issued, t: Time)
    requires History(hasher, ops) && PrunedBy(ops, t) && IssuedAt(hasher, ops, i, issued)
    ensures issued.credential.credentialId == ops[i].draw.credentialId && ops[i].draw.WellFormed()
    ensures issued.credential.credentialId in Drawn(ops)
    ensures Kept(Run(hasher, ops).rows, ops, issued.credential, t)
    decreases |ops|
  {
    var n := |ops| - 1;
    var past, op, c := ops[..n], ops[n], issued.credential;
    assert ops == past + [op];
    OnlyDrawnIds(hasher, past);
    if i == n {
      UndrawnIsNotWithdrawn(hasher, past, c.credentialId);
      assert !Withdraws(op, c.credentialId);
    } else {
      assert past[..i] == ops[..i];
      IssuedIsKept(hasher, past, i, issued, t);
      KeptByStep(hasher, past, op, c, t);
    }
  }

  /** What was presented names a credential: a bearer token that reads as its id and
      some secret. */
  predicate Presents(header: string, id: string, secret: string) {
    && ParseBearer(Some(header)).Ok?
    && ParseToken(ParseBearer(Some(header)).value) == Ok(Parsed(id, secret))
  }

  /** Whoever authenticates with a stored credential presented a secret with the very
      keyed hash of the one drawn when that credential was issued. */
  lemma OnlyItsSecretAuthenticates(auth: Authenticator, ops: seq<Op>, header: string, t: Time)
    returns (id: string, secret: string, i: nat)
    requires History(auth.hasher, ops)
    requires var answer := auth.Authenticate(Run(auth.hasher, ops).rows, Some(header), t);
             answer.Ok? && answer.value.via.Some?
    ensures auth.Authenticate(Run(auth.hasher, ops).rows, Some(header), t).value.via == Some(id)
    ensures Presents(header, id, secret) && DrewId(ops, i, id) && auth.hasher.pepper != ""
    ensures auth.hasher.hmac(auth.hasher.pepper, secret) == auth.hasher.hmac(auth.hasher.pepper, ops[i].draw.secret)
    ensures forall j :: DrewId(ops, j, id) ==> j == i
  {
    var parsed := ParseToken(ParseBearer(Some(header)).value).value;
    id, secret := parsed.credentialId, parsed.secret;
    OnlyDrawnIds(auth.hasher, ops);
    i := VerifierIsOfDraw(auth.hasher, ops, id);
    forall j | DrewId(ops, j, id) ensures j == i {
      DrawnOnce(auth.hasher, ops, i, j, id);
    }
  }

  /** In every history and for every secret presented under an issued id: it
      authenticates if and only if its keyed hash is that of the drawn secret and the
      credential is in force; otherwise the client learns only that it is unknown. */
  lemma SecretDecides(
      auth: Authenticator, ops: seq<Op>, i: nat, issued: Issued, header: string, secret: string, t: Time)
    requires History(auth.hasher, ops) && PrunedBy(ops, t) && IssuedAt(auth.hasher, ops, i, issued)
    requires Presents(header, issued.credential.credentialId, secret)
    ensures var c, hasher := issued.credential, auth.hasher;
            var answer := auth.Authenticate(Run(hasher, ops).rows, Some(header), t);
            if hasher.hmac(hasher.pepper, secret) == hasher.hmac(hasher.pepper, ops[i].draw.secret)
               && !Withdrawn(ops, c.credentialId) && (c.expiresAt == None || t < c.expiresAt.value)
            then answer == Ok(Actor(c.holder, Some(c.credentialId)))
            else answer.Err? && answer.error.reason == UnknownCredential
  {
    IssuedIsKept(auth.hasher, ops, i, issued, t);
    MintedVerifier(auth.hasher, Run(auth.hasher, ops[..i]).rows, ops[i]);
    hide Run, History, Minted, Withdrawn, PrunedBy, ParseBearer, ParseToken, IssuedAt;
    KeptAnswers(auth, Run(auth.hasher, ops).rows, ops, issued.credential, header, secret, t);
  }

  /** What the table keeps of a credential decides what presenting it gets. */
  lemma KeptAnswers(
      auth: Authenticator, rows: Rows, ops: seq<Op>, c: Credential, header: string, secret: string, t: Time)
    requires Kept(rows, ops, c, t) && Presents(header, c.credentialId, secret) && auth.hasher.pepper != ""
    ensures var answer := auth.Authenticate(rows, Some(header), t);
            if auth.hasher.hmac(auth.hasher.pepper, secret) == c.verifier
               && !Withdrawn(ops, c.credentialId) && (c.expiresAt == None || t < c.expiresAt.value)
            then answer == Ok(Actor(c.holder, Some(c.credentialId)))
            else answer.Err? && answer.error.reason == UnknownCredential
  {
    hide Withdrawn, ParseBearer, ParseToken;
  }

  lemma MintedVerifier(hasher: Hasher, rows: Rows, op: Op)
    requires (op.Create? || op.Rotate?) && Minted(hasher, rows, op).Ok?
    ensures hasher.pepper != ""
    ensures Minted(hasher, rows, op).value.credential.verifier == hasher.hmac(hasher.pepper, op.draw.secret)
  {
  }

  /** A header that presents nothing is told so: absent or blank, or not a scheme and
      a token. */
  lemma HeaderDecidesFirst(auth: Authenticator, rows: Rows, header: Option<string>, t: Time)
    ensures var answer := auth.Authenticate(rows, header, t);
            && (header == None || (forall i :: 0 <= i < |header.value| ==> IsSpace(header.value[i])) <==>
                  answer.Err? && answer.error.reason == MissingCredential)
            && (answer.Err? && answer.error.reason == MalformedCredential <==>
                  header.Some? && !Blank(header.value) && ParseBearer(header).Err?)
  {
  }

  /** Configured tokens speak only for headers whose token is not shaped like a
      credential's, and only with the digest of one of them. */
  lemma ConfiguredTokensSpeakForOthers(auth: Authenticator, rows: Rows, header: string, t: Time)
    requires var answer := auth.Authenticate(rows, Some(header), t); answer.Ok? && answer.value.via == None
    ensures auth.legacy.Some? && ParseBearer(Some(header)).Ok? && ParseToken(ParseBearer(Some(header)).value).Err?
    ensures var creds, token := auth.legacy.value, ParseBearer(Some(header)).value;
            exists i :: 0 <= i < |creds| && auth.sha(creds[i].token) == auth.sha(token)
                        && auth.Authenticate(rows, Some(header), t).value.holder == creds[i].holder
                        && forall j :: i < j < |creds| ==> auth.sha(creds[j].token) != auth.sha(token)
  {
    LastMatchIsLast(auth.legacy.value, auth.sha, auth.sha(ParseBearer(Some(header)).value));
  }

  /** In every history, an issued token authenticates at `t`, as exactly the holder
      it was issued for, if and only if its credential has not been withdrawn and
      has not expired; otherwise the client learns only that it is unknown. What
      happened to other credentials, prunes included, does not matter. */
  lemma AuthenticatesWhileInForce(
      auth: Authenticator, ops: seq<Op>, i: nat, issued: Issued, header: string, t: Time)
    requires History(auth.hasher, ops) && PrunedBy(ops, t) && IssuedAt(auth.hasher, ops, i, issued)
    requires ParseBearer(Some(header)) == Ok(issued.token)
    ensures var c := issued.credential;
            var answer := auth.Authenticate(Run(auth.hasher, ops).rows, Some(header), t);
            if !Withdrawn(ops, c.credentialId) && (c.expiresAt == None || t < c.expiresAt.value)
            then answer == Ok(Actor(c.holder, Some(c.credentialId)))
            else answer.Err? && answer.error.reason == UnknownCredential
  {
    IssuedIsKept(auth.hasher, ops, i, issued, t);
    IssuedNamesItself(auth.hasher, Run(auth.hasher, ops[..i]).rows, ops[i], issued);
    hide Run, History, Minted, Withdrawn, PrunedBy, ParseBearer, ParseToken, Kept;
    SecretDecides(auth, ops, i, issued, header, ops[i].draw.secret, t);
  }

  lemma IssuedNamesItself(hasher: Hasher, rows: Rows, op: Op, issued: Issued)
    requires (op.Create? || op.Rotate?) && op.draw.WellFormed() && Minted(hasher, rows, op) == Ok(issued)
    ensures ParseToken(issued.token) == Ok(Parsed(issued.credential.credentialId, op.draw.secret))
  {
    match op
    case Create(draw, holder, expiresAt, now) => IssuedIsUsable(hasher, draw, holder, expiresAt, None, now);
    case Rotate(id, _, draw, expiresAt, now, _) =>
      IssuedIsUsable(hasher, draw, rows[id].holder, expiresAt, Some(id), now);
  }

  /** And that holder is the one the first credential of its rotation chain was
      created for. */
  lemma AuthenticatesAsOrigin(auth: Authenticator, ops: seq<Op>, header: string, t: Time)
    requires History(auth.hasher, ops)
    requires var answer := auth.Authenticate(Run(auth.hasher, ops).rows, Some(header), t);
             answer.Ok? && answer.value.via.Some?
    ensures var actor := auth.Authenticate(Run(auth.hasher, ops).rows, Some(header), t).value;
            Origin(ops, actor.via.value) == Some(actor.holder)
  {
    hide ParseBearer, ParseToken, LastMatch, History;
    var id := ParseToken(ParseBearer(Some(header)).value).value.credentialId;
    OnlyDrawnIds(auth.hasher, ops);
    RotationKeepsHolder(auth.hasher, ops, id);
  }
}
