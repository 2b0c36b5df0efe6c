/** The credential table behind its transactions, the lifecycle operations that
    audit themselves, and the authenticator's bookkeeping hook
    (memory/store.py, security/credential_store.py,
    security/credential_service.py, interface/api.py). */
module CredentialService {
  import opened Common
  import opened Credentials
  import opened CredentialHistory
  import opened Authn

  /** One connection: what its statements see, and what was last committed. Any
      statement may fail; a failed statement changes nothing. */
  class CredentialStore {
    const canDelete: bool
    var rows: Rows
    var committed: Rows

    /** No transaction is open. */
    ghost predicate Idle()
      reads this
    {
      rows == committed && Keyed(rows)
    }

    constructor (canDelete: bool)
      ensures Idle() && rows == map[] && this.canDelete == canDelete
    {
      this.canDelete, rows, committed := canDelete, map[], map[];
    }

    // ---- statements

    method Insert(c: Credential) returns (ok: bool)
      modifies this`rows
      ensures ok ==> c.credentialId !in old(rows) && rows == old(rows)[c.credentialId := c]
      ensures !ok ==> rows == old(rows)
    {
      var fails: bool := *;
      ok := !fails && c.credentialId !in rows;
      if ok {
        rows := rows[c.credentialId := c];
      }
    }

    method SetRevokedAt(id: string, when: Time) returns (ok: bool)
      modifies this`rows
      ensures rows == if ok && id in old(rows) then old(rows)[id := old(rows)[id].WithRevokedAt(when)] else old(rows)
    {
      var fails: bool := *;
      ok := !fails;
      if ok && id in rows {
        rows := rows[id := rows[id].WithRevokedAt(when)];
      }
    }

    method SetLastUsedAt(id: string, when: Time) returns (ok: bool)
      modifies this`rows
      ensures rows == if ok && id in old(rows) then old(rows)[id := old(rows)[id].(lastUsedAt := Some(when))] else old(rows)
    {
      var fails: bool := *;
      ok := !fails;
      if ok && id in rows {
        rows := rows[id := rows[id].(lastUsedAt := Some(when))];
      }
    }

    method Delete(id: string) returns (ok: bool)
      modifies this`rows
      ensures rows == if ok then old(rows) - {id} else old(rows)
    {
      var fails: bool := *;
      ok := !fails;
      if ok {
        rows := rows - {id};
      }
    }

    method Commit()
      modifies this`committed
      ensures committed == rows
    {
      committed := rows;
    }

    method Rollback()
      modifies this`rows
      ensures rows == committed
    {
      rows := committed;
    }

    // ---- the store's operations

    /** One statement, committed at once; an id already there is refused. */
    method Create(c: Credential) returns (r: Result<(), Fault>)
      requires Idle()
      modifies this`rows, this`committed
      ensures Idle()
      ensures r.Ok? ==> c.credentialId !in old(rows) && rows == old(rows)[c.credentialId := c]
      ensures r.Err? ==> rows == old(rows) && r.error == StoreFailed
    {
      var ok := Insert(c);
      if !ok {
        return Err(StoreFailed);
      }
      Commit();
      return Ok(());
    }

    method Get(id: string) returns (r: Option<Credential>)
      ensures r == if id in rows then Some(rows[id]) else None
    {
      return if id in rows then Some(rows[id]) else None;
    }

    /** Every row once. */
    method List() returns (all: seq<Credential>)
      requires Keyed(rows)
      ensures forall i :: 0 <= i < |all| ==> all[i].credentialId in rows && rows[all[i].credentialId] == all[i]
      ensures forall id :: id in rows ==> rows[id] in all
      ensures forall i, j :: 0 <= i < j < |all| ==> all[i].credentialId != all[j].credentialId
    {
      all := [];
      var left := rows.Keys;
      while left != {}
        invariant left <= rows.Keys
        invariant forall i :: 0 <= i < |all| ==>
                    all[i].credentialId in rows && all[i].credentialId !in left && rows[all[i].credentialId] == all[i]
        invariant forall id :: id in rows && id !in left ==> rows[id] in all
        invariant forall i, j :: 0 <= i < j < |all| ==> all[i].credentialId != all[j].credentialId
        decreases |left|
      {
        var id :| id in left;
        all := all + [rows[id]];
        left := left - {id};
      }
    }

    /** Revoking twice keeps the first date. */
    method Revoke(id: string, when: Time) returns (r: Result<Option<Credential>, Fault>)
      requires Idle()
      modifies this`rows, this`committed
      ensures Idle()
      ensures r.Ok? ==> rows == AfterRevoke(old(rows), id, when)
      ensures r.Ok? ==>
                rows == if id in old(rows) && old(rows)[id].revokedAt == None
                        then old(rows)[id := old(rows)[id].(revokedAt := Some(when))] else old(rows)
      ensures r.Ok? ==> r.value == if id in rows then Some(rows[id]) else None
      ensures r.Err? ==> rows == old(rows) && r.error == StoreFailed && id in rows
    {
      var existing := Get(id);
      if existing == None || existing.value.revokedAt.Some? {
        return Ok(existing);
      }
      var ok := SetRevokedAt(id, when);
      if !ok {
        return Err(StoreFailed);
      }
      Commit();
      return Ok(Some(existing.value.WithRevokedAt(when)));
    }

    method UpdateLastUsed(id: string, when: Time) returns (ok: bool)
      requires Idle()
      modifies this`rows, this`committed
      ensures Idle()
      ensures rows == if ok then AfterUse(old(rows), id, when) else old(rows)
      ensures rows == if ok && id in old(rows) then old(rows)[id := old(rows)[id].(lastUsedAt := Some(when))] else old(rows)
    {
      ok := SetLastUsedAt(id, when);
      if ok {
        Commit();
      }
    }

    /** Both statements or neither: whichever of the two fails, the table is as it
        was. */
    method Rotate(id: string, replacement: Credential, revokeOldAt: Option<Time>)
      returns (r: Result<Option<Credential>, Fault>)
      requires Idle()
      modifies this`rows, this`committed
      ensures Idle()
      ensures r.Ok? ==> r.value == if id in old(rows) then Some(old(rows)[id]) else None
      ensures r.Ok? && r.value.Some? ==>
                replacement.credentialId !in old(rows) && rows == AfterRotate(old(rows), id, replacement, revokeOldAt)
      ensures r.Ok? && r.value == None ==> rows == old(rows)
      ensures r.Err? ==> rows == old(rows) && r.error == StoreFailed
    {
      var existing := Get(id);
      if existing == None {
        return Ok(None);
      }
      var ok := Insert(replacement);
      if ok && revokeOldAt.Some? && existing.value.revokedAt == None {
        ok := SetRevokedAt(id, revokeOldAt.value);
      }
      if !ok {
        Rollback();
        return Err(StoreFailed);
      }
      Commit();
      return Ok(existing);
    }

    /** All of them or none. */
    method DeleteMany(ids: seq<string>) returns (ok: bool)
      requires Idle()
      modifies this`rows, this`committed
      ensures Idle()
      ensures rows == if ok then old(rows) - (set i | 0 <= i < |ids| :: ids[i]) else old(rows)
    {
      for n := 0 to |ids|
        invariant committed == old(rows) && rows == old(rows) - (set i | 0 <= i < n :: ids[i])
      {
        var gone := Delete(ids[n]);
        if !gone {
          Rollback();
          return false;
        }
      }
      Commit();
      return true;
    }

    /** How many could authenticate now. */
    method CountActive(now: Time) returns (n: nat)
      requires Keyed(rows)
      ensures n == |ActiveIds(rows, now)|
    {
      var all := List();
      n := 0;
      ghost var seen: set<string> := {};
      for i := 0 to |all|
        invariant n == |seen|
        invariant seen == set j | 0 <= j < i && all[j].UsableAt(now) :: all[j].credentialId
      {
        if all[i].UsableAt(now) {
          assert all[i].credentialId !in seen;
          seen := seen + {all[i].credentialId};
          n := n + 1;
        }
      }
      assert seen == ActiveIds(rows, now);
    }
  }

  datatype Rotation = Rotation(issued: Issued, previous: Credential, previousRevoked: bool)

  /** Create, revoke, rotate and prune, writing the trail as they go. */
  class CredentialService {
    const store: CredentialStore
    const hasher: Hasher
    var audit: seq<Entry>
    ghost var ops: seq<Op>  // what completed

    /** Table and trail are what the completed operations, and nothing else, made
        them. */
    ghost predicate Valid()
      reads this, store
    {
      && store.Idle()
      && History(hasher, ops)
      && Run(hasher, ops) == World(store.rows, audit)
    }

    constructor (hasher: Hasher, canDelete: bool)
      ensures Valid() && fresh(store) && ops == [] && this.hasher == hasher && store.canDelete == canDelete
    {
      this.hasher := hasher;
      store := new CredentialStore(canDelete);
      audit, ops := [], [];
    }

    /** A draw nobody has seen. */
    ghost predicate Fresh(draw: Draw)
      reads this
    {
      draw.WellFormed() && draw.credentialId !in Drawn(ops)
    }

    ghost method Complete(op: Op)
      requires History(hasher, ops) && Completes(hasher, Run(hasher, ops), op)
      requires op.Create? || op.Rotate? ==> Fresh(op.draw)
      requires store.Idle() && World(store.rows, audit) == Apply(hasher, Run(hasher, ops), op)
      modifies this`ops
      ensures Valid() && ops == old(ops) + [op]
    {
      assert (ops + [op])[..|ops|] == ops;
      ops := ops + [op];
    }

    method Create(draw: Draw, holder: Holder, expiresAt: Option<Time>, now: Time) returns (r: Result<Issued, Fault>)
      requires Valid() && Fresh(draw)
      modifies this, store
      ensures Valid()
      ensures r.Ok? ==> ops == old(ops) + [Op.Create(draw, holder, expiresAt, now)]
      ensures r.Ok? ==> r == IssueCredential(hasher, draw, holder, expiresAt, None, now)
      ensures r.Err? ==> ops == old(ops) && store.rows == old(store.rows) && audit == old(audit)
    {
      var issued := IssueCredential(hasher, draw, holder, expiresAt, None, now);
      if issued.Err? {
        return issued;
      }
      var c := issued.value.credential;
      var stored := store.Create(c);
      if stored.Err? {
        return Err(stored.error);
      }
      audit := audit + [CredentialCreated(FieldsOf(c))];
      Complete(Op.Create(draw, holder, expiresAt, now));
      return issued;
    }

    method Get(id: string) returns (r: Result<Credential, Fault>)
      ensures r == if id in store.rows then Ok(store.rows[id]) else Err(NotFound)
    {
      var c := store.Get(id);
      return if c == None then Err(NotFound) else Ok(c.value);
    }

    method Revoke(id: string, when: Time) returns (r: Result<Credential, Fault>)
      requires Valid()
      modifies this, store
      ensures Valid()
      ensures r.Ok? ==> ops == old(ops) + [Op.Revoke(id, when)] && id in store.rows && r.value == store.rows[id]
      ensures r.Err? ==> ops == old(ops) && store.rows == old(store.rows) && audit == old(audit)
      ensures r == Err(NotFound) <==> id !in old(store.rows)
    {
      var updated := store.Revoke(id, when);
      if updated.Err? {
        return Err(updated.error);
      }
      if updated.value == None {
        return Err(NotFound);
      }
      audit := audit + [CredentialEntry(updated.value.value, when, false)];
      Complete(Op.Revoke(id, when));
      return Ok(updated.value.value);
    }

    static function CredentialEntry(c: Credential, at: Time, byRotation: bool): Entry {
      CredentialRevoked(FieldsOf(c), at, byRotation)
    }

    /** A replacement for the same holder; the original stays valid unless told
        otherwise. */
    method Rotate(id: string, revokePrevious: bool, draw: Draw, expiresAt: Option<Time>, now: Time, when: Time)
      returns (r: Result<Rotation, Fault>)
      requires Valid() && Fresh(draw)
      modifies this, store
      ensures Valid()
      ensures r.Ok? ==> ops == old(ops) + [Op.Rotate(id, revokePrevious, draw, expiresAt, now, when)]
      ensures r.Ok? ==>
                && id in old(store.rows) && r.value.previous == old(store.rows)[id]
                && r.value.previousRevoked == revokePrevious
                && Ok(r.value.issued) ==
                     IssueCredential(hasher, draw, old(store.rows)[id].holder, expiresAt, Some(id), now)
      ensures r.Err? ==> ops == old(ops) && store.rows == old(store.rows) && audit == old(audit)
    {
      ghost var w := World(store.rows, audit);
      var op := Op.Rotate(id, revokePrevious, draw, expiresAt, now, when);
      var existing := Get(id);
      if existing.Err? {
        return Err(existing.error);
      }
      var issued := IssueCredential(hasher, draw, existing.value.holder, expiresAt, Some(id), now);
      if issued.Err? {
        return Err(issued.error);
      }
      var c := issued.value.credential;
      var previous := store.Rotate(id, c, if revokePrevious then Some(when) else None);
      if previous.Err? {
        return Err(previous.error);
      }
      audit := audit + [CredentialRotated(FieldsOf(c), id, revokePrevious)];
      if revokePrevious {
        audit := audit + [CredentialEntry(existing.value, when, true)];
      }
      assert Completes(hasher, w, op);
      assert World(store.rows, audit) == Apply(hasher, w, op);
      Complete(op);
      return Ok(Rotation(issued.value, existing.value, revokePrevious));
    }

    /** Delete what stopped being usable before the cutoff. */
    method Prune(olderThan: Time, now: Time) returns (r: Result<seq<string>, Fault>)
      requires Valid()
      modifies this, store
      ensures Valid()
      ensures r.Ok? ==> exists doomed: seq<Credential> ::
                && Doomed(old(store.rows), olderThan, now, doomed)
                && r.value == seq(|doomed|, i requires 0 <= i < |doomed| => doomed[i].credentialId)
                && ops == old(ops) + if doomed == [] then [] else [Op.Prune(olderThan, now, doomed)]
      ensures r.Err? ==> ops == old(ops) && store.rows == old(store.rows) && audit == old(audit)
      ensures r == Err(CannotDelete) <==>
                !store.canDelete && exists id :: id in old(store.rows) && Retired(old(store.rows)[id], olderThan, now)
    {
      var doomed := FindDoomed(olderThan, now);
      if doomed == [] {
        return Ok([]);
      }
      if !store.canDelete {
        assert doomed[0].credentialId in store.rows && Retired(doomed[0], olderThan, now);
        return Err(CannotDelete);
      }
      var ids := seq(|doomed|, i requires 0 <= i < |doomed| => doomed[i].credentialId);
      assert Ids(doomed) == set i | 0 <= i < |ids| :: ids[i] by {
        forall i | 0 <= i < |ids| ensures ids[i] == doomed[i].credentialId && ids[i] in Ids(doomed) {
        }
      }
      var deleted := store.DeleteMany(ids);
      if !deleted {
        return Err(StoreFailed);
      }
      audit := audit + Prunings(doomed);
      Complete(Op.Prune(olderThan, now, doomed));
      return Ok(ids);
    }

    method FindDoomed(olderThan: Time, now: Time) returns (doomed: seq<Credential>)
      requires store.Idle()
      ensures Doomed(store.rows, olderThan, now, doomed)
    {
      var all := store.List();
      doomed := [];
      for i := 0 to |all|
        invariant forall k :: 0 <= k < |doomed| ==> doomed[k] in all[..i] && Retired(doomed[k], olderThan, now)
        invariant forall k :: 0 <= k < i && Retired(all[k], olderThan, now) ==> all[k] in doomed
        invariant forall j, k :: 0 <= j < k < |doomed| ==> doomed[j].credentialId != doomed[k].credentialId
      {
        var c := all[i];
        if c.StatusAt(now) == Active {
          continue;
        }
        var retiredAt := if c.revokedAt.Some? then c.revokedAt else c.expiresAt;
        if retiredAt.Some? && retiredAt.value < olderThan {
          doomed := doomed + [c];
        }
      }
    }
  }

  /** How stale a last use may get before it is written again: five minutes. */
  const LAST_USED_RESOLUTION: Time := 300_000_000

  class CredentialAuthenticator {
    const auth: Authenticator
    const store: CredentialStore

    constructor (auth: Authenticator, store: CredentialStore)
      ensures this.auth == auth && this.store == store
    {
      this.auth, this.store := auth, store;
    }

    /** The answer is decided by the rows alone; then the use is noted, unless one
        was noted lately, and failing to note it changes nothing. */
    method Authenticate(header: Option<string>, now: Time) returns (r: Answer, noted: bool)
      requires store.Idle()
      modifies store`rows, store`committed
      ensures store.Idle()
      ensures r == auth.Authenticate(old(store.rows), header, now)
      ensures noted ==>
                && r.Ok? && r.value.via.Some? && r.value.via.value in old(store.rows)
                && var last := old(store.rows)[r.value.via.value].lastUsedAt;
                   last.Some? ==> now - last.value >= 5 * 60 * 1_000_000
      ensures store.rows == if noted then AfterUse(old(store.rows), r.value.via.value, now) else old(store.rows)
      ensures noted ==> store.rows[r.value.via.value].lastUsedAt == Some(now)
    {
      r, noted := auth.Authenticate(store.rows, header, now), false;
      if r.Ok? && r.value.via.Some? {
        var id := r.value.via.value;
        var previous := store.Get(id);
        if previous.Some? && NeedsNoting(store.rows, id, now) {
          noted := store.UpdateLastUsed(id, now);
        }
      }
    }

    static predicate NeedsNoting(rows: Rows, id: string, now: Time) {
      id in rows && (rows[id].lastUsedAt == None || now - rows[id].lastUsedAt.value >= LAST_USED_RESOLUTION)
    }
  }
}
