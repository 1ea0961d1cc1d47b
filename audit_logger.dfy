/**
 * The audit trail of integration changes: one appended record per changed
 * field, one snapshot per lead before a change, the rollback of a whole batch
 * (newest change first, all or nothing) and the purge of expired snapshots.
 *
 * A record's id is its index plus one. "Newest first" (the change time,
 * descending) is taken as the reverse of insertion order; records written in
 * the same second tie on the change time, and this model breaks such ties by
 * descending id.
 */
module AuditLogger {
  import opened Store

  /** Snapshots are kept for 120 days. */
  const BackupLifetime: int := 120 * 86400

  /** The date recorded as the old value's entry date: the lead's last update time, if the lead exists. */
  function EntryDate(leads: seq<Lead>, leadId: nat): (d: Option<int>)
    ensures d.Some? <==> ValidId(leads, leadId)
    ensures d.Some? ==> d.value == leads[leadId - 1].lastUpdated
  {
    if ValidId(leads, leadId) then Some(leads[leadId - 1].lastUpdated) else None
  }

  /**
   * Appends one ACTIVE record for a changed field and returns its id. When
   * the audit table refuses the write the failure is swallowed: nothing is
   * appended and the result is `None`.
   */
  method LogChange(db: Database, leadId: nat, field: string, oldValue: Val, newValue: Val, batch: string, actor: string)
    returns (id: Option<nat>)
    modifies db`audit
    ensures db.auditAvailable ==>
      && db.audit == old(db.audit) + [AuditRecord(leadId, field, oldValue, newValue, EntryDate(db.leads, leadId), batch, actor, Active)]
      && id == Some(|db.audit|)
    ensures !db.auditAvailable ==> db.audit == old(db.audit) && id.None?
  {
    if !db.auditAvailable {
      return None;
    }
    db.audit := db.audit + [AuditRecord(leadId, field, oldValue, newValue, EntryDate(db.leads, leadId), batch, actor, Active)];
    id := Some(|db.audit|);
  }

  /**
   * Stores a full snapshot of a lead, to expire 120 days from `now`. A missing
   * lead, or a backup table that refuses the write, gives `None` and no row.
   */
  method CreateBackup(db: Database, leadId: nat, batch: string, now: int) returns (id: Option<nat>)
    modifies db`backups
    ensures !ValidId(db.leads, leadId) || !db.backupAvailable ==> db.backups == old(db.backups) && id.None?
    ensures ValidId(db.leads, leadId) && db.backupAvailable ==>
      && db.backups == old(db.backups) + [Backup(leadId, db.leads[leadId - 1], batch, now + BackupLifetime)]
      && id == Some(|db.backups|)
  {
    if !ValidId(db.leads, leadId) || !db.backupAvailable {
      return None;
    }
    db.backups := db.backups + [Backup(leadId, db.leads[leadId - 1], batch, now + BackupLifetime)];
    id := Some(|db.backups|);
  }

  /** A record that a rollback of `batch` selects. */
  predicate Selected(r: AuditRecord, batch: string) {
    r.batch == batch && r.status == Active
  }

  /** The indices of the records among the first `n` that a rollback of `batch` selects, newest first. */
  function ChangesBelow(audit: seq<AuditRecord>, batch: string, n: nat): (cs: seq<nat>)
    requires n <= |audit|
    ensures forall k :: 0 <= k < |cs| ==> cs[k] < n && Selected(audit[cs[k]], batch)
    ensures forall i :: 0 <= i < n && Selected(audit[i], batch) ==> i in cs
    ensures forall j, k :: 0 <= j < k < |cs| ==> cs[j] > cs[k]
  {
    if n == 0 then []
    else if Selected(audit[n - 1], batch) then [n - 1] + ChangesBelow(audit, batch, n - 1)
    else ChangesBelow(audit, batch, n - 1)
  }

  /** The records a rollback of `batch` selects, newest first. */
  function Changes(audit: seq<AuditRecord>, batch: string): seq<nat>
  {
    ChangesBelow(audit, batch, |audit|)
  }

  /**
   * Writes a record's old value back into its field of its lead. A field name
   * that is not a column (such as 'product_removed' or 'sales_return'), or a
   * value of the wrong kind for the column, makes the update fail (`None`).
   * An id that matches no lead updates nothing.
   */
  function Restore(leads: seq<Lead>, r: AuditRecord): (res: Option<seq<Lead>>)
    ensures res.Some? ==> |res.value| == |leads|
    ensures ColumnNamed(r.field).None? ==> res.None?
    ensures res.Some? && ValidId(leads, r.leadId) ==>
      && Get(res.value[r.leadId - 1], ColumnNamed(r.field).value) == r.oldValue
      && forall i :: 0 <= i < |leads| && i != r.leadId - 1 ==> res.value[i] == leads[i]
    ensures res.Some? && !ValidId(leads, r.leadId) ==> res.value == leads
  {
    match ColumnNamed(r.field)
    case None => None
    case Some(c) =>
      if !ValidId(leads, r.leadId) then Some(leads)
      else
        match Set(leads[r.leadId - 1], c, r.oldValue)
        case None => None
        case Some(l) => Some(leads[r.leadId - 1 := l])
  }

  /**
   * Applies the restorations of the records at `cs[from..]`, in order; the
   * first failure fails the whole.
   */
  function ApplyFrom(leads: seq<Lead>, audit: seq<AuditRecord>, cs: seq<nat>, from: nat): (res: Option<seq<Lead>>)
    requires from <= |cs|
    requires forall k :: 0 <= k < |cs| ==> cs[k] < |audit|
    ensures res.Some? ==> |res.value| == |leads|
    decreases |cs| - from
  {
    if from == |cs| then Some(leads)
    else
      match Restore(leads, audit[cs[from]])
      case None => None
      case Some(next) => ApplyFrom(next, audit, cs, from + 1)
  }

  function ApplyChanges(leads: seq<Lead>, audit: seq<AuditRecord>, cs: seq<nat>): Option<seq<Lead>>
    requires forall k :: 0 <= k < |cs| ==> cs[k] < |audit|
  {
    ApplyFrom(leads, audit, cs, 0)
  }

  /** The audit log after a rollback of `batch`: every selected record is REVERTED, every other record is as it was. */
  function RevertBatch(audit: seq<AuditRecord>, batch: string): (r: seq<AuditRecord>)
    ensures |r| == |audit|
    ensures forall i :: 0 <= i < |audit| && !Selected(audit[i], batch) ==> r[i] == audit[i]
    ensures forall i :: 0 <= i < |audit| && Selected(audit[i], batch) ==>
      r[i].status == Reverted && r[i].(status := Active) == audit[i]
  {
    seq(|audit|, i requires 0 <= i < |audit| =>
      if Selected(audit[i], batch) then audit[i].(status := Reverted) else audit[i])
  }

  /** The audit log with the records at `cs[..k]` marked REVERTED, one after the other. */
  function FlipPrefix(audit: seq<AuditRecord>, cs: seq<nat>, k: nat): (r: seq<AuditRecord>)
    requires k <= |cs|
    requires forall j :: 0 <= j < |cs| ==> cs[j] < |audit|
    ensures |r| == |audit|
  {
    if k == 0 then audit
    else FlipPrefix(audit, cs, k - 1)[cs[k - 1] := audit[cs[k - 1]].(status := Reverted)]
  }

  lemma {:induction false} FlipPrefixAt(audit: seq<AuditRecord>, cs: seq<nat>, k: nat, i: nat)
    requires k <= |cs|
    requires forall j :: 0 <= j < |cs| ==> cs[j] < |audit|
    requires i < |audit|
    ensures FlipPrefix(audit, cs, k)[i] == if i in cs[..k] then audit[i].(status := Reverted) else audit[i]
  {
    if k > 0 {
      FlipPrefixAt(audit, cs, k - 1, i);
      assert cs[..k] == cs[..k - 1] + [cs[k - 1]];
    }
  }

  /** Marking every selected record, newest first, is reverting the batch. */
  lemma FlipAllSelected(audit: seq<AuditRecord>, batch: string)
    ensures FlipPrefix(audit, Changes(audit, batch), |Changes(audit, batch)|) == RevertBatch(audit, batch)
  {
    var cs := Changes(audit, batch);
    var f := FlipPrefix(audit, cs, |cs|);
    forall i | 0 <= i < |audit| ensures f[i] == RevertBatch(audit, batch)[i] {
      FlipPrefixAt(audit, cs, |cs|, i);
      assert cs[..|cs|] == cs;
    }
  }

  /**
   * Rolls back every ACTIVE record of `batch`, newest first: each writes its
   * old value into its lead and becomes REVERTED, and the count of records is
   * returned. If any restoration fails, the transaction is rolled back: no
   * lead and no record changes, and the result is a failure.
   */
  method RollbackBatch(db: Database, batch: string) returns (success: bool, count: nat)
    modifies db`leads, db`audit
    ensures var res := ApplyChanges(old(db.leads), old(db.audit), Changes(old(db.audit), batch));
      if res.Some? then
        && success && count == |Changes(old(db.audit), batch)|
        && db.leads == res.value
        && db.audit == RevertBatch(old(db.audit), batch)
      else
        && !success && count == 0
        && db.leads == old(db.leads) && db.audit == old(db.audit)
  {
    var leads0, audit0 := db.leads, db.audit;
    var cs := Changes(audit0, batch);
    var k := 0;
    while k < |cs|
      invariant 0 <= k <= |cs|
      invariant ApplyChanges(leads0, audit0, cs) == ApplyFrom(db.leads, audit0, cs, k)
      invariant db.audit == FlipPrefix(audit0, cs, k)
    {
      var restored := Restore(db.leads, audit0[cs[k]]);
      if restored.None? {
        db.leads, db.audit := leads0, audit0;
        return false, 0;
      }
      db.leads := restored.value;
      db.audit := db.audit[cs[k] := audit0[cs[k]].(status := Reverted)];
      k := k + 1;
    }
    FlipAllSelected(audit0, batch);
    return true, |cs|;
  }

  /** Whether record `r` restores field `name` of lead `id`. */
  predicate Targets(r: AuditRecord, id: nat, name: string) {
    r.leadId == id && r.field == name
  }

  /** The last position in `cs[lo..hi]` whose record restores field `name` of lead `id`. */
  function LastTargetIn(audit: seq<AuditRecord>, cs: seq<nat>, lo: nat, hi: nat, id: nat, name: string): (r: Option<nat>)
    requires lo <= hi <= |cs|
    requires forall k :: 0 <= k < |cs| ==> cs[k] < |audit|
    ensures r.Some? ==> lo <= r.value < hi && Targets(audit[cs[r.value]], id, name)
    ensures r.Some? ==> forall k :: r.value < k < hi ==> !Targets(audit[cs[k]], id, name)
    ensures r.None? ==> forall k :: lo <= k < hi ==> !Targets(audit[cs[k]], id, name)
    decreases hi - lo
  {
    if lo == hi then None
    else if Targets(audit[cs[hi - 1]], id, name) then Some(hi - 1)
    else LastTargetIn(audit, cs, lo, hi - 1, id, name)
  }

  /** The last target in `cs[lo..hi]` is the last one in `cs[lo + 1..hi]`, or else `lo` itself if it is a target. */
  lemma {:induction false} LastTargetInStep(audit: seq<AuditRecord>, cs: seq<nat>, lo: nat, hi: nat, id: nat, name: string)
    requires lo < hi <= |cs|
    requires forall k :: 0 <= k < |cs| ==> cs[k] < |audit|
    ensures LastTargetIn(audit, cs, lo, hi, id, name) ==
      if LastTargetIn(audit, cs, lo + 1, hi, id, name).Some? then LastTargetIn(audit, cs, lo + 1, hi, id, name)
      else if Targets(audit[cs[lo]], id, name) then Some(lo)
      else None
    decreases hi - lo
  {
    if lo + 1 < hi && !Targets(audit[cs[hi - 1]], id, name) {
      LastTargetInStep(audit, cs, lo, hi - 1, id, name);
    }
  }

  /**
   * After the restorations of `cs[from..]` succeed, each field of each lead
   * holds the old value of the restoration applied last to it, or its value
   * before them when none targets it.
   */
  lemma {:induction false} ApplyFromFinalValue(leads: seq<Lead>, audit: seq<AuditRecord>, cs: seq<nat>, from: nat, id: nat, c: Column)
    requires from <= |cs|
    requires forall k :: 0 <= k < |cs| ==> cs[k] < |audit|
    requires ApplyFrom(leads, audit, cs, from).Some?
    requires ValidId(leads, id)
    ensures var final := ApplyFrom(leads, audit, cs, from).value;
      match LastTargetIn(audit, cs, from, |cs|, id, ColumnName(c))
      case Some(k) => Get(final[id - 1], c) == audit[cs[k]].oldValue
      case None => Get(final[id - 1], c) == Get(leads[id - 1], c)
    decreases |cs| - from
  {
    if from < |cs| {
      var r := audit[cs[from]];
      var next := Restore(leads, r).value;
      ApplyFromFinalValue(next, audit, cs, from + 1, id, c);
      LastTargetInStep(audit, cs, from, |cs|, id, ColumnName(c));
      ColumnNameRoundTrip(c);
      if r.leadId == id && r.field != ColumnName(c) {
        assert ColumnNamed(r.field).value != c;
      }
    }
  }

  /** Record `i` is the earliest record of `batch` that a rollback would apply to field `name` of lead `id`. */
  predicate EarliestTarget(audit: seq<AuditRecord>, batch: string, id: nat, name: string, i: nat) {
    && i < |audit|
    && Selected(audit[i], batch) && Targets(audit[i], id, name)
    && forall j :: 0 <= j < i ==> !(Selected(audit[j], batch) && Targets(audit[j], id, name))
  }

  /**
   * After a successful rollback of `batch`, a field that the batch changed
   * several times holds the old value of its earliest change in the batch.
   * "Earliest" is by record id; it is the earliest by change time when the
   * field's changes in the batch were written at distinct times.
   */
  lemma EarliestChangeWins(leads: seq<Lead>, audit: seq<AuditRecord>, batch: string, id: nat, c: Column, i: nat)
    requires ApplyChanges(leads, audit, Changes(audit, batch)).Some?
    requires ValidId(leads, id)
    requires EarliestTarget(audit, batch, id, ColumnName(c), i)
    ensures Get(ApplyChanges(leads, audit, Changes(audit, batch)).value[id - 1], c) == audit[i].oldValue
  {
    var cs := Changes(audit, batch);
    var name := ColumnName(c);
    ApplyFromFinalValue(leads, audit, cs, 0, id, c);
    assert i in cs;
    var p :| 0 <= p < |cs| && cs[p] == i;
    var last := LastTargetIn(audit, cs, 0, |cs|, id, name);
    assert last.Some?;
    var k := last.value;
  }

  /** After a successful rollback of `batch`, a field that the batch did not change keeps its value. */
  lemma UnchangedFieldKept(leads: seq<Lead>, audit: seq<AuditRecord>, batch: string, id: nat, c: Column)
    requires ApplyChanges(leads, audit, Changes(audit, batch)).Some?
    requires ValidId(leads, id)
    requires forall i :: 0 <= i < |audit| && Selected(audit[i], batch) ==> !Targets(audit[i], id, ColumnName(c))
    ensures Get(ApplyChanges(leads, audit, Changes(audit, batch)).value[id - 1], c) == Get(leads[id - 1], c)
  {
    ApplyFromFinalValue(leads, audit, Changes(audit, batch), 0, id, c);
  }

  /** A record whose field is not a column fails its restoration whatever the leads, and so fails every fold it is part of. */
  lemma {:induction false} NonColumnAborts(leads: seq<Lead>, audit: seq<AuditRecord>, cs: seq<nat>, from: nat, p: nat)
    requires from <= p < |cs|
    requires forall k :: 0 <= k < |cs| ==> cs[k] < |audit|
    requires ColumnNamed(audit[cs[p]].field).None?
    ensures ApplyFrom(leads, audit, cs, from).None?
    decreases p - from
  {
    var step := Restore(leads, audit[cs[from]]);
    if from < p && step.Some? {
      NonColumnAborts(step.value, audit, cs, from + 1, p);
    }
  }

  /**
   * A batch holding an ACTIVE record of a field that is not a column (such as
   * 'product_removed' or 'sales_return') cannot be rolled back: the rollback
   * fails and, by `RollbackBatch`, changes nothing.
   */
  lemma NonColumnBlocksRollback(leads: seq<Lead>, audit: seq<AuditRecord>, batch: string, i: nat)
    requires i < |audit| && Selected(audit[i], batch)
    requires ColumnNamed(audit[i].field).None?
    ensures ApplyChanges(leads, audit, Changes(audit, batch)).None?
  {
    var cs := Changes(audit, batch);
    assert i in cs;
    var p :| 0 <= p < |cs| && cs[p] == i;
    NonColumnAborts(leads, audit, cs, 0, p);
  }

  /** After a rollback of `batch`, a second rollback of it selects nothing and so changes nothing. */
  lemma {:induction false} RollbackIdempotent(audit: seq<AuditRecord>, batch: string, n: nat)
    requires n <= |audit|
    ensures ChangesBelow(RevertBatch(audit, batch), batch, n) == []
  {
    if n > 0 {
      RollbackIdempotent(audit, batch, n - 1);
    }
  }

  /** The backups that a purge at time `now` keeps, in their order: those not yet expired. */
  function Kept(backups: seq<Backup>, now: int): (r: seq<Backup>)
    ensures |r| <= |backups|
    ensures forall b :: b in r <==> b in backups && b.expiresAt >= now
  {
    if backups == [] then []
    else
      var last := backups[|backups| - 1];
      assert backups == backups[..|backups| - 1] + [last];
      Kept(backups[..|backups| - 1], now) + (if last.expiresAt < now then [] else [last])
  }

  /**
   * Deletes every backup with `expiresAt < now`, keeps the others in order,
   * and returns the number deleted.
   */
  method CleanupExpiredBackups(db: Database, now: int) returns (deleted: nat)
    modifies db`backups
    ensures db.backups == Kept(old(db.backups), now)
    ensures deleted == |old(db.backups)| - |db.backups|
  {
    var all := db.backups;
    var kept: seq<Backup> := [];
    var i := 0;
    while i < |all|
      invariant 0 <= i <= |all|
      invariant kept == Kept(all[..i], now)
    {
      assert all[..i + 1][..i] == all[..i];
      if all[i].expiresAt >= now {
        kept := kept + [all[i]];
      }
      i := i + 1;
    }
    assert all[..i] == all;
    db.backups := kept;
    deleted := |all| - |kept|;
  }

  /** A purge over backups none of which has expired keeps them all. */
  lemma {:induction false} NothingExpiredKeepsAll(backups: seq<Backup>, now: int)
    requires forall k :: 0 <= k < |backups| ==> backups[k].expiresAt >= now
    ensures Kept(backups, now) == backups
  {
    if backups != [] {
      NothingExpiredKeepsAll(backups[..|backups| - 1], now);
    }
  }

  /** A purge repeated at the same instant deletes nothing. */
  lemma CleanupIdempotent(backups: seq<Backup>, now: int)
    ensures Kept(Kept(backups, now), now) == Kept(backups, now)
  {
    var k := Kept(backups, now);
    assert forall j :: 0 <= j < |k| ==> k[j] in k;
    NothingExpiredKeepsAll(k, now);
  }
}
