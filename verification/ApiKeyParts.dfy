/**
 One tenant's part of the API key store (internal/auth/apikey_postgres.go): its rows, locks and
 rotations behave as if no other tenant had any.
 */
module ApiKeyParts {
  import opened ApiKeys
  import opened Common

  /** The rows of one tenant. */
  ghost predicate RowsOf(w: Table, p: Table, tenant: string) {
    && (forall id :: id in p <==> id in w && w[id].tenant == tenant)
    && (forall id :: id in p ==> p[id] == w[id])
  }

  ghost predicate LocksOf(rows: Table, w: map<string, nat>, p: map<string, nat>) {
    forall id :: id in rows ==> (id in p <==> id in w)
  }

  ghost predicate RotationsOf(w: map<nat, Rotation>, p: map<nat, Rotation>, tenant: string) {
    && (forall tx :: tx in p <==> tx in w && w[tx].tenant == tenant)
    && (forall tx :: tx in p ==> p[tx] == w[tx])
  }

  ghost predicate DrawnFrom(w: History, p: History) {
    && (forall id :: id in p.secrets ==> id in w.secrets)
    && (forall x :: x in p.keyOf ==> x in w.keyOf)
  }

  /** `p` holds exactly the rows, locks and rotations of one tenant in `w`, and no other id or secret. */
  ghost predicate Restricts(w: State, p: State, tenant: string) {
    && RowsOf(w.table, p.table, tenant) && LocksOf(p.table, w.locks, p.locks)
    && RotationsOf(w.rotations, p.rotations, tenant) && DrawnFrom(w.past, p.past)
  }

  lemma {:induction false} OwnRow(w: Table, p: Table, id: string, row: Row, tenant: string)
    requires RowsOf(w, p, tenant) && row.tenant == tenant
    ensures RowsOf(w[id := row], p[id := row], tenant)
  {}

  lemma {:induction false} OtherRow(w: Table, p: Table, id: string, row: Row, tenant: string)
    requires RowsOf(w, p, tenant) && row.tenant != tenant && (id in w ==> w[id].tenant != tenant)
    ensures RowsOf(w[id := row], p, tenant)
  {}

  lemma {:induction false} OwnCreateRestricts(
      w: State, p: State, spec: Spec, id: string, secret: string, hash: string -> string, tenant: string)
    requires Restricts(w, p, tenant) && Rooted(w) && Rooted(p) && Scoped(w, hash)
    requires Enabled(w, Create(spec, id, secret)) && spec.tenant == tenant
    ensures Enabled(p, Create(spec, id, secret))
    ensures var a := Create(spec, id, secret); Restricts(Apply(w, a, hash), Apply(p, a, hash), tenant)
  {
    RowsHaveSecrets(w, hash);
    OwnRow(w.table, p.table, id, NewRow(spec, hash(secret)), tenant);
  }

  lemma {:induction false} RowsHaveSecrets(s: State, hash: string -> string)
    requires Scoped(s, hash)
    ensures forall k :: k in s.table ==> k in s.past.secrets
  {
    forall k | k in s.table ensures k in s.past.secrets {
      assert RowOk(s.table[k], k, s.past, hash);
    }
  }

  lemma {:induction false} OwnSelectRestricts(
      w: State, p: State, tx: nat, id: string, hash: string -> string, tenant: string)
    requires Restricts(w, p, tenant) && Enabled(w, SelectForUpdate(tx, tenant, id))
    ensures var a := SelectForUpdate(tx, tenant, id);
      Enabled(p, a) && Restricts(Apply(w, a, hash), Apply(p, a, hash), tenant)
  {}

  lemma {:induction false} OwnStageRestricts(w: State, p: State, tx: nat, stage: Stage, tenant: string)
    requires Restricts(w, p, tenant) && tx in w.rotations && w.rotations[tx].tenant == tenant
    ensures tx in p.rotations && Restricts(ApplyStage(w, tx, stage), ApplyStage(p, tx, stage), tenant)
  {}

  lemma {:induction false} OwnRevokeOldRestricts(
      w: State, p: State, tx: nat, now: int, hash: string -> string, tenant: string)
    requires Restricts(w, p, tenant) && Enabled(w, RevokeOld(tx, now)) && w.rotations[tx].tenant == tenant
    ensures var a := RevokeOld(tx, now); Enabled(p, a) && Restricts(Apply(w, a, hash), Apply(p, a, hash), tenant)
  {
    OwnStageRestricts(w, p, tx, OldRevoked(now), tenant);
  }

  lemma {:induction false} OwnInsertRestricts(
      w: State, p: State, tx: nat, newId: string, secret: string, hash: string -> string, tenant: string)
    requires Restricts(w, p, tenant) && Enabled(w, InsertNew(tx, newId, secret)) && w.rotations[tx].tenant == tenant
    ensures var a := InsertNew(tx, newId, secret);
      Enabled(p, a) && Restricts(Apply(w, a, hash), Apply(p, a, hash), tenant)
  {
    OwnStageRestricts(w, p, tx, NewInserted(w.rotations[tx].stage.at, newId, secret), tenant);
  }

  lemma {:induction false} OwnCommitRestricts(w: State, p: State, tx: nat, hash: string -> string, tenant: string)
    requires Restricts(w, p, tenant) && Rooted(w) && Rooted(p) && Scoped(p, hash)
    requires Enabled(w, Commit(tx)) && RotationOk(w, tx) && w.rotations[tx].tenant == tenant
    ensures Enabled(p, Commit(tx)) && Restricts(Apply(w, Commit(tx), hash), Apply(p, Commit(tx), hash), tenant)
  {
    var q := w.rotations[tx];
    assert RowOk(p.table[q.id], q.id, p.past, hash);
    var before, after := q.row.(revokedAt := Some(q.stage.at)), Successor(q.row, q.tenant, hash(q.stage.secret));
    OwnRow(w.table, p.table, q.id, before, tenant);
    OwnRow(w.table[q.id := before], p.table[q.id := before], q.stage.newId, after, tenant);
  }

  lemma {:induction false} OwnRollbackRestricts(w: State, p: State, tx: nat, hash: string -> string, tenant: string)
    requires Restricts(w, p, tenant) && Enabled(w, Rollback(tx)) && w.rotations[tx].tenant == tenant
    ensures Enabled(p, Rollback(tx)) && Restricts(Apply(w, Rollback(tx), hash), Apply(p, Rollback(tx), hash), tenant)
  {}

  lemma {:induction false} OwnRevokeRestricts(
      w: State, p: State, id: string, now: int, hash: string -> string, tenant: string)
    requires Restricts(w, p, tenant) && Scoped(p, hash) && Enabled(w, Revoke(tenant, id, now))
    ensures var a := Revoke(tenant, id, now); Enabled(p, a) && Restricts(Apply(w, a, hash), Apply(p, a, hash), tenant)
  {
    assert RowOk(p.table[id], id, p.past, hash);
    OwnRow(w.table, p.table, id, w.table[id].(revokedAt := Some(now)), tenant);
  }

  /** The steps of the tenant's own rotations before they commit. */
  lemma {:induction false} OwnRotationRestricts(w: State, p: State, a: Action, hash: string -> string, tenant: string)
    requires Restricts(w, p, tenant) && Enabled(w, a) && Actor(w, a) == tenant
    requires a.SelectForUpdate? || a.RevokeOld? || a.InsertNew? || a.Rollback?
    ensures Enabled(p, a) && Restricts(Apply(w, a, hash), Apply(p, a, hash), tenant)
  {
    match a {
      case SelectForUpdate(tx, _, id) => OwnSelectRestricts(w, p, tx, id, hash, tenant);
      case RevokeOld(tx, now) => OwnRevokeOldRestricts(w, p, tx, now, hash, tenant);
      case InsertNew(tx, newId, secret) => OwnInsertRestricts(w, p, tx, newId, secret, hash, tenant);
      case Rollback(tx) => OwnRollbackRestricts(w, p, tx, hash, tenant);
    }
  }

  /** The steps of the tenant that write rows. */
  lemma {:induction false} OwnWriteRestricts(w: State, p: State, a: Action, hash: string -> string, tenant: string)
    requires Scoped(w, hash) && RotationsOk(w) && Scoped(p, hash) && Rooted(w) && Rooted(p) && Restricts(w, p, tenant)
    requires Enabled(w, a) && Actor(w, a) == tenant && (a.Create? || a.Commit?)
    ensures Enabled(p, a) && Restricts(Apply(w, a, hash), Apply(p, a, hash), tenant)
  {
    match a {
      case Create(spec, id, secret) => OwnCreateRestricts(w, p, spec, id, secret, hash, tenant);
      case Commit(tx) =>
        assert RotationOk(w, tx);
        OwnCommitRestricts(w, p, tx, hash, tenant);
    }
  }

  /** A step of the tenant itself is enabled in its part too, and keeps it its part. */
  lemma {:induction false} OwnStepRestricts(w: State, p: State, a: Action, hash: string -> string, tenant: string)
    requires Scoped(w, hash) && RotationsOk(w) && Scoped(p, hash) && Rooted(w) && Rooted(p) && Restricts(w, p, tenant)
    requires Enabled(w, a) && Actor(w, a) == tenant
    ensures Enabled(p, a) && Restricts(Apply(w, a, hash), Apply(p, a, hash), tenant)
  {
    if a.Create? || a.Commit? {
      OwnWriteRestricts(w, p, a, hash, tenant);
    } else if a.Revoke? {
      OwnRevokeRestricts(w, p, a.id, a.now, hash, tenant);
    } else {
      OwnRotationRestricts(w, p, a, hash, tenant);
    }
  }

  lemma {:induction false} OtherCommitRestricts(w: State, p: State, tx: nat, hash: string -> string, tenant: string)
    requires Restricts(w, p, tenant) && Enabled(w, Commit(tx)) && RotationOk(w, tx) && w.rotations[tx].tenant != tenant
    ensures Restricts(Apply(w, Commit(tx), hash), p, tenant)
  {
    var q := w.rotations[tx];
    var before, after := q.row.(revokedAt := Some(q.stage.at)), Successor(q.row, q.tenant, hash(q.stage.secret));
    OtherRow(w.table, p.table, q.id, before, tenant);
    OtherRow(w.table[q.id := before], p.table, q.stage.newId, after, tenant);
  }

  lemma {:induction false} OtherCreateRestricts(
      w: State, p: State, spec: Spec, id: string, secret: string, hash: string -> string, tenant: string)
    requires Restricts(w, p, tenant) && Scoped(w, hash) && Enabled(w, Create(spec, id, secret)) && spec.tenant != tenant
    ensures Restricts(Apply(w, Create(spec, id, secret), hash), p, tenant)
  {
    RowsHaveSecrets(w, hash);
    OtherRow(w.table, p.table, id, NewRow(spec, hash(secret)), tenant);
  }

  lemma {:induction false} OtherRevokeRestricts(
      w: State, p: State, t: string, id: string, now: int, hash: string -> string, tenant: string)
    requires Restricts(w, p, tenant) && Enabled(w, Revoke(t, id, now)) && t != tenant
    ensures Restricts(Apply(w, Revoke(t, id, now), hash), p, tenant)
  {
    OtherRow(w.table, p.table, id, w.table[id].(revokedAt := Some(now)), tenant);
  }

  lemma {:induction false} OtherLockRestricts(
      w: State, p: State, tx: nat, t: string, id: string, hash: string -> string, tenant: string)
    requires Restricts(w, p, tenant) && Enabled(w, SelectForUpdate(tx, t, id)) && t != tenant
    ensures Restricts(Apply(w, SelectForUpdate(tx, t, id), hash), p, tenant)
  {}

  lemma {:induction false} OtherUnlockRestricts(w: State, p: State, tx: nat, hash: string -> string, tenant: string)
    requires Restricts(w, p, tenant) && Enabled(w, Rollback(tx)) && RotationOk(w, tx)
    requires w.rotations[tx].tenant != tenant
    ensures Restricts(Apply(w, Rollback(tx), hash), p, tenant)
  {}

  lemma {:induction false} OtherStageRestricts(w: State, p: State, tx: nat, stage: Stage, tenant: string)
    requires Restricts(w, p, tenant) && tx in w.rotations && w.rotations[tx].tenant != tenant
    ensures Restricts(ApplyStage(w, tx, stage), p, tenant)
  {}

  lemma {:induction false} OtherInsertRestricts(
      w: State, p: State, tx: nat, newId: string, secret: string, hash: string -> string, tenant: string)
    requires Restricts(w, p, tenant) && Enabled(w, InsertNew(tx, newId, secret)) && w.rotations[tx].tenant != tenant
    ensures Restricts(Apply(w, InsertNew(tx, newId, secret), hash), p, tenant)
  {
    OtherStageRestricts(w, p, tx, NewInserted(w.rotations[tx].stage.at, newId, secret), tenant);
  }

  /** The steps of another tenant's rotations before they commit. */
  lemma {:induction false} OtherRotationRestricts(w: State, p: State, a: Action, hash: string -> string, tenant: string)
    requires Restricts(w, p, tenant) && RotationsOk(w) && Enabled(w, a) && Actor(w, a) != tenant
    requires a.SelectForUpdate? || a.RevokeOld? || a.InsertNew? || a.Rollback?
    ensures Restricts(Apply(w, a, hash), p, tenant)
  {
    match a {
      case SelectForUpdate(tx, t, id) => OtherLockRestricts(w, p, tx, t, id, hash, tenant);
      case RevokeOld(tx, now) => OtherStageRestricts(w, p, tx, OldRevoked(now), tenant);
      case InsertNew(tx, newId, secret) => OtherInsertRestricts(w, p, tx, newId, secret, hash, tenant);
      case Rollback(tx) =>
        assert RotationOk(w, tx);
        OtherUnlockRestricts(w, p, tx, hash, tenant);
    }
  }

  /** A step of another tenant leaves the part alone. */
  lemma {:induction false} OtherStepRestricts(w: State, p: State, a: Action, hash: string -> string, tenant: string)
    requires Scoped(w, hash) && RotationsOk(w) && Restricts(w, p, tenant) && Enabled(w, a) && Actor(w, a) != tenant
    ensures Restricts(Apply(w, a, hash), p, tenant)
  {
    match a {
      case Create(spec, id, secret) => OtherCreateRestricts(w, p, spec, id, secret, hash, tenant);
      case Commit(tx) =>
        assert RotationOk(w, tx);
        OtherCommitRestricts(w, p, tx, hash, tenant);
      case Revoke(t, id, now) => OtherRevokeRestricts(w, p, t, id, now, hash, tenant);
      case _ => OtherRotationRestricts(w, p, a, hash, tenant);
    }
  }

  /** A hash of the tenant's keys resolves in its part as it does among all keys; no other hash resolves in it. */
  lemma {:induction false} ResolveInPart(w: State, p: State, x: string, now: int, tenant: string)
    requires UniqueHashes(w.table) && Restricts(w, p, tenant)
    ensures var r, r' := Resolve(w.table, x, now), Resolve(p.table, x, now);
      && (r.Ok? && r.value.tenant == tenant ==> r' == r)
      && (r'.Ok? ==> r == r')
  {
    assert forall k :: HashAt(p.table, k, x) ==> HashAt(w.table, k, x);
    if id :| HashAt(w.table, id, x) {
      assert forall k :: HashAt(w.table, k, x) ==> k == id;
      if w.table[id].tenant == tenant { assert HashAt(p.table, id, x); }
    }
  }
}
