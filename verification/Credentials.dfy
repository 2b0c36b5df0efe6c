/** Credentials, and minting them (security/credentials.py, core/identity.py). */
module Credentials {
  import opened Common
  import opened Tokens

  /** Microseconds. */
  type Time = int

  datatype ActorType = Human | Service | Node | System

  datatype Scope = TaskCreate | TaskRead | ApprovalRead | ApprovalGrant | AuditRead | SystemRead

  /** Who a credential speaks for; rotation must not change any of it. */
  datatype Holder = Holder(actorId: string, actorType: ActorType, displayName: Option<string>, scopes: set<Scope>)

  /** An authenticated principal; `via` is the credential it proved itself with. */
  datatype Actor = Actor(holder: Holder, via: Option<string>)

  datatype Status = Active | Expired | Revoked

  datatype Credential = Credential(
    credentialId: string,
    holder: Holder,
    verifier: string,
    createdAt: Time,
    expiresAt: Option<Time>,
    revokedAt: Option<Time>,
    lastUsedAt: Option<Time>,
    rotatedFrom: Option<string>)
  {
    /** Revocation wins over expiry. */
    function StatusAt(now: Time): Status {
      if revokedAt.Some? then Revoked
      else if expiresAt.Some? && now >= expiresAt.value then Expired
      else Active
    }

    predicate UsableAt(now: Time) {
      StatusAt(now) == Active
    }

    function ToActor(): Actor {
      Actor(holder, Some(credentialId))
    }

    function WithRevokedAt(when: Time): Credential {
      this.(revokedAt := Some(when))
    }
  }

  /** Once unusable, never usable again. */
  lemma StatusOnlyGetsWorse(c: Credential, now: Time, later: Time)
    requires !c.UsableAt(now) && now <= later
    ensures !c.UsableAt(later) && (c.StatusAt(now) == Revoked <==> c.StatusAt(later) == Revoked)
  {
  }

  datatype Fault = BornExpired | NoPepper | Invalid | NotFound | StoreFailed | CannotDelete

  /** The keyed hash, of which nothing is known, and its key. */
  datatype Hasher = Hasher(pepper: string, hmac: (string, string) -> string)
  {
    function ComputeVerifier(secret: string): Result<string, Fault> {
      if pepper == "" then Err(NoPepper) else Ok(hmac(pepper, secret))
    }

    predicate VerifySecret(secret: string, expected: string) {
      var candidate := ComputeVerifier(secret);
      candidate.Ok? && candidate.value == expected
    }
  }

  /** Field limits of the record. */
  predicate HolderValid(h: Holder) {
    && 1 <= |h.actorId| <= 128
    && (h.displayName.Some? ==> |h.displayName.value| <= 128)
  }

  /** What the random generators came up with. */
  datatype Draw = Draw(credentialId: string, secret: string)
  {
    /** 48 random bits in hexadecimal, and 256 in URL-safe base64. */
    predicate WellFormed() {
      && WellFormedId(credentialId)
      && 0 < |secret| <= MAX_TOKEN_LENGTH - 18
      && forall i :: 0 <= i < |secret| ==> UrlSafe(secret[i])
    }
  }

  datatype Issued = Issued(credential: Credential, token: string)

  function IssueCredential(
      hasher: Hasher, draw: Draw, holder: Holder, expiresAt: Option<Time>, rotatedFrom: Option<string>, now: Time)
    : Result<Issued, Fault>
  {
    if expiresAt.Some? && expiresAt.value <= now then Err(BornExpired)
    else
      var verifier := hasher.ComputeVerifier(draw.secret);
      if verifier.Err? then Err(NoPepper)
      else if !HolderValid(holder) || !(1 <= |verifier.value| <= 128) || !Matches(draw.credentialId) then Err(Invalid)
      else
        var token := FormatToken(draw.credentialId, draw.secret);
        if token.Err? then Err(Invalid)
        else
          Ok(Issued(
               Credential(draw.credentialId, holder, verifier.value, now, expiresAt, None, None, rotatedFrom),
               token.value))
  }

  /** Minting goes through exactly for a key that is set, an expiry still ahead and
      fields within their limits; the record is dated now, unrevoked and unused. */
  lemma IssueIsExact(
      hasher: Hasher, draw: Draw, holder: Holder, expiresAt: Option<Time>, rotatedFrom: Option<string>, now: Time)
    requires draw.WellFormed()
    ensures var issued := IssueCredential(hasher, draw, holder, expiresAt, rotatedFrom, now);
            && (issued.Ok? <==>
                  && hasher.pepper != "" && 1 <= |hasher.hmac(hasher.pepper, draw.secret)| <= 128
                  && (expiresAt.Some? ==> now < expiresAt.value)
                  && 1 <= |holder.actorId| <= 128 && (holder.displayName.Some? ==> |holder.displayName.value| <= 128))
            && (issued.Ok? ==>
                  issued.value.credential ==
                  Credential(draw.credentialId, holder, hasher.hmac(hasher.pepper, draw.secret), now, expiresAt,
                             None, None, rotatedFrom))
  {
    PatternIsExactButForNewlines(draw.credentialId);
    ParseUndoesFormat(draw.credentialId, draw.secret);
  }

  /** What is issued is usable at once, speaks for its holder, verifies against
      its own secret, and its token reads back as itself. */
  lemma IssuedIsUsable(
      hasher: Hasher, draw: Draw, holder: Holder, expiresAt: Option<Time>, rotatedFrom: Option<string>, now: Time)
    requires draw.WellFormed()
    requires IssueCredential(hasher, draw, holder, expiresAt, rotatedFrom, now).Ok?
    ensures var issued := IssueCredential(hasher, draw, holder, expiresAt, rotatedFrom, now).value;
            && issued.credential.UsableAt(now)
            && issued.credential.holder == holder
            && hasher.pepper != "" && issued.credential.verifier == hasher.hmac(hasher.pepper, draw.secret)
            && ParseBearer(Some("Bearer " + issued.token)) == Ok(issued.token)
            && ParseToken(issued.token) == Ok(Parsed(draw.credentialId, draw.secret))
  {
    IssuedTokenSurvivesHeader(draw.credentialId, draw.secret);
  }
}
