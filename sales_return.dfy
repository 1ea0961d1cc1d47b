/**
 * Sales returns: a returned volume is taken back from the opportunity that
 * sold the most of the product family to the customer. A full return moves
 * the opportunity to 'Suspect', a partial one keeps it at 'Order'; the
 * annual potential is never lowered. The opportunity is backed up first and
 * every change is logged with actor 'RETURN_SYSTEM'.
 */
module SalesReturn {
  import opened Store
  import opened EngineCommon
  import AuditLogger

  /** One return as it arrives: customer GSTIN, product family and returned volume. */
  datatype ReturnRecord = ReturnRecord(gstin: string, family: string, volume: real)

  /** The messages of a return, one constructor per message text. */
  datatype ReturnMsg =
    | ReturnProcessed(amount: real)
    | VolumeChanged(from: real, to: real)
    | PotentialChanged(from: real, to: real)
    | StageChanged(fromStage: string, toStage: string)
    | FullReturn
    | PartialReturn
    | NoMatchingOpportunity(gstin: string, family: string)
    | ExcessReturn(amount: real, sold: real)

  /** The result of one return. */
  datatype ReturnOutcome = ReturnOutcome(
    status: Status,
    oppId: Option<nat>,
    returnAmount: real,
    newVolume: real,
    stageChanged: bool,
    messages: seq<ReturnMsg>)

  /** Whether a lead may take a return: same customer, the family in one of its slots, at stage Order or Qualified. */
  predicate Candidate(l: Lead, g: string, family: string) {
    && l.gstin == g
    && (l.product1 == family || l.product2 == family || l.product3 == family)
    && (l.stage == "Order" || l.stage == "Qualified")
  }

  /**
   * The lead a return is taken from: among the candidates, one with the
   * largest converted volume (the first of them by id when several tie).
   */
  function FindOpportunityForReturn(leads: seq<Lead>, g: string, family: string): (r: Option<nat>)
    ensures r.None? <==> forall j :: 0 <= j < |leads| ==> !Candidate(leads[j], g, family)
    ensures r.Some? ==> ValidId(leads, r.value) && Candidate(leads[r.value - 1], g, family)
    ensures r.Some? ==> forall j :: 0 <= j < |leads| && Candidate(leads[j], g, family) ==>
      leads[j].volume <= leads[r.value - 1].volume
    decreases |leads|
  {
    if leads == [] then None
    else
      var rest := FindOpportunityForReturn(leads[..|leads| - 1], g, family);
      var last := leads[|leads| - 1];
      if Candidate(last, g, family) && (rest.None? || last.volume > leads[rest.value - 1].volume) then Some(|leads|)
      else rest
  }

  /** The stage after a return: 'Suspect' when nothing is left, 'Order' when some volume is, else unchanged. */
  function StageAfterReturn(stage: string, newVolume: real): (s: string)
    ensures newVolume == 0.0 ==> s == "Suspect"
    ensures newVolume > 0.0 ==> s == "Order"
    ensures newVolume < 0.0 ==> s == stage
  {
    if newVolume == 0.0 then "Suspect"
    else if newVolume > 0.0 then "Order"
    else stage
  }

  /**
   * The potential after a return: kept after a full return (the customer
   * has shown it can buy that much), raised to the remaining volume after a
   * partial one when that is larger.
   */
  function PotentialAfterReturn(potential: real, newVolume: real): (p: real)
    ensures p >= potential
    ensures newVolume == 0.0 ==> p == potential
    ensures newVolume != 0.0 ==> p >= newVolume && (p == potential || p == newVolume)
  {
    if newVolume == 0.0 then potential
    else if potential >= newVolume then potential else newVolume
  }

  /** An audit record written by the return processor. */
  function ReturnAuditRecord(id: nat, field: string, oldValue: Val, newValue: Val, batch: string, l: Lead): AuditRecord {
    AuditRecord(id, field, oldValue, newValue, Some(l.lastUpdated), batch, "RETURN_SYSTEM", Active)
  }

  /**
   * The audit records of a return on lead `l`: the volume always, the
   * potential and the stage only when they change, then the return itself
   * as a 'sales_return' entry from "0.00".
   */
  function ReturnRecords(id: nat, l: Lead, newVolume: real, newPotential: real, newStage: string, amount: real, batch: string)
    : (s: seq<AuditRecord>)
    ensures 2 <= |s| <= 4
    ensures s[0] == ReturnAuditRecord(id, "volume_converted", Num(l.volume), Num(newVolume), batch, l)
    ensures s[|s| - 1] == ReturnAuditRecord(id, "sales_return", Text("0.00"), Num(amount), batch, l)
    ensures |s| == 2 + (if newPotential != l.potential then 1 else 0) + (if newStage != l.stage then 1 else 0)
    ensures forall i :: 0 <= i < |s| ==> s[i].leadId == id && s[i].actor == "RETURN_SYSTEM" && s[i].batch == batch
  {
    [ReturnAuditRecord(id, "volume_converted", Num(l.volume), Num(newVolume), batch, l)]
    + (if newPotential != l.potential then [ReturnAuditRecord(id, "annual_potential", Num(l.potential), Num(newPotential), batch, l)] else [])
    + (if newStage != l.stage then [ReturnAuditRecord(id, "lead_status", Text(l.stage), Text(newStage), batch, l)] else [])
    + [ReturnAuditRecord(id, "sales_return", Text("0.00"), Num(amount), batch, l)]
  }

  /**
   * The lead after a return: the new volume, potential and stage, with the
   * batch and time of the update; the managed flag and everything else kept.
   */
  function Returned(l: Lead, newVolume: real, newPotential: real, newStage: string, batch: string, now: int): (t: Lead)
    ensures t.volume == newVolume && t.potential == newPotential && t.stage == newStage
    ensures t.batchId == batch && t.lastIntegrationUpdate == now
    ensures t.(volume := l.volume, potential := l.potential, stage := l.stage,
               batchId := l.batchId, lastIntegrationUpdate := l.lastIntegrationUpdate) == l
  {
    l.(volume := newVolume, potential := newPotential, stage := newStage, batchId := batch, lastIntegrationUpdate := now)
  }

  /** Writes the new volume, potential and stage of lead `id` in one update. */
  method UpdateOpportunityAfterReturn(db: Database, id: nat, newVolume: real, newPotential: real, newStage: string, batch: string, now: int)
    requires ValidId(db.leads, id)
    modifies db`leads
    ensures db.leads == old(db.leads)[id - 1 := Returned(old(db.leads[id - 1]), newVolume, newPotential, newStage, batch, now)]
  {
    db.leads := db.leads[id - 1 := Returned(db.leads[id - 1], newVolume, newPotential, newStage, batch, now)];
  }

  /** Logs one change of a return on the lead that stood as `l`. */
  method LogReturnChange(db: Database, id: nat, l: Lead, field: string, oldValue: Val, newValue: Val, batch: string)
    requires ValidId(db.leads, id) && db.leads[id - 1].lastUpdated == l.lastUpdated
    modifies db`audit
    ensures db.audit == Logged(old(db.audit), db.auditAvailable, [ReturnAuditRecord(id, field, oldValue, newValue, batch, l)])
  {
    var _ := AuditLogger.LogChange(db, id, field, oldValue, newValue, batch, "RETURN_SYSTEM");
  }

  /** Logs the changes of a return on the lead that stood as `l`, one record at a time. */
  method LogReturnChanges(db: Database, id: nat, l: Lead, newVolume: real, newPotential: real, newStage: string, amount: real, batch: string)
    requires ValidId(db.leads, id) && db.leads[id - 1].lastUpdated == l.lastUpdated
    modifies db`audit
    ensures db.audit == Logged(old(db.audit), db.auditAvailable, ReturnRecords(id, l, newVolume, newPotential, newStage, amount, batch))
  {
    ghost var audit0 := db.audit;
    ghost var recs := [ReturnAuditRecord(id, "volume_converted", Num(l.volume), Num(newVolume), batch, l)];
    LogReturnChange(db, id, l, "volume_converted", Num(l.volume), Num(newVolume), batch);
    if newPotential != l.potential {
      ghost var more := [ReturnAuditRecord(id, "annual_potential", Num(l.potential), Num(newPotential), batch, l)];
      LogReturnChange(db, id, l, "annual_potential", Num(l.potential), Num(newPotential), batch);
      LoggedTwice(audit0, db.auditAvailable, recs, more);
      recs := recs + more;
    }
    if newStage != l.stage {
      ghost var more := [ReturnAuditRecord(id, "lead_status", Text(l.stage), Text(newStage), batch, l)];
      LogReturnChange(db, id, l, "lead_status", Text(l.stage), Text(newStage), batch);
      LoggedTwice(audit0, db.auditAvailable, recs, more);
      recs := recs + more;
    }
    ghost var last := [ReturnAuditRecord(id, "sales_return", Text("0.00"), Num(amount), batch, l)];
    LogReturnChange(db, id, l, "sales_return", Text("0.00"), Num(amount), batch);
    LoggedTwice(audit0, db.auditAvailable, recs, last);
    assert recs + last == ReturnRecords(id, l, newVolume, newPotential, newStage, amount, batch);
  }

  /** The messages of a return that went through. */
  function ReturnMessages(l: Lead, amount: real, newVolume: real, newPotential: real, newStage: string): seq<ReturnMsg> {
    [ReturnProcessed(amount), VolumeChanged(l.volume, newVolume), PotentialChanged(l.potential, newPotential)]
    + (if newStage != l.stage then [StageChanged(l.stage, newStage)] else [])
    + [if newVolume == 0.0 then FullReturn else PartialReturn]
  }

  /**
   * Takes the return off lead `id`. A return larger than the sold volume
   * fails and changes nothing; otherwise the volume drops by the return,
   * stage and potential follow the return policy, and the changes are logged.
   */
  method ProcessReturn(db: Database, id: nat, ret: ReturnRecord, batch: string, now: int) returns (out: ReturnOutcome)
    requires ValidId(db.leads, id)
    modifies db`leads, db`audit
    ensures |db.leads| == |old(db.leads)|
    ensures var l := old(db.leads[id - 1]);
      ret.volume > l.volume ==>
        && out == ReturnOutcome(Failed, Some(id), 0.0, 0.0, false, [ExcessReturn(ret.volume, l.volume)])
        && db.leads == old(db.leads) && db.audit == old(db.audit)
    ensures var l := old(db.leads[id - 1]);
      ret.volume <= l.volume ==>
        var v := l.volume - ret.volume;
        var p := PotentialAfterReturn(l.potential, v);
        var s := StageAfterReturn(l.stage, v);
        && out == ReturnOutcome(Succeeded, Some(id), ret.volume, v, s != l.stage, ReturnMessages(l, ret.volume, v, p, s))
        && db.leads == old(db.leads)[id - 1 := Returned(l, v, p, s, batch, now)]
        && db.audit == Logged(old(db.audit), db.auditAvailable, ReturnRecords(id, l, v, p, s, ret.volume, batch))
  {
    var l := db.leads[id - 1];
    if ret.volume > l.volume {
      return ReturnOutcome(Failed, Some(id), 0.0, 0.0, false, [ExcessReturn(ret.volume, l.volume)]);
    }
    var newVolume := l.volume - ret.volume;
    var newStage := StageAfterReturn(l.stage, newVolume);
    var newPotential := PotentialAfterReturn(l.potential, newVolume);
    UpdateOpportunityAfterReturn(db, id, newVolume, newPotential, newStage, batch, now);
    LogReturnChanges(db, id, l, newVolume, newPotential, newStage, ret.volume, batch);
    var msgs := [ReturnProcessed(ret.volume), VolumeChanged(l.volume, newVolume), PotentialChanged(l.potential, newPotential)];
    if newStage != l.stage {
      msgs := msgs + [StageChanged(l.stage, newStage)];
    }
    if newVolume == 0.0 {
      msgs := msgs + [FullReturn];
    } else {
      msgs := msgs + [PartialReturn];
    }
    out := ReturnOutcome(Succeeded, Some(id), ret.volume, newVolume, newStage != l.stage, msgs);
  }

  /**
   * Processes one return: with no candidate lead it fails and writes
   * nothing; otherwise the chosen lead is backed up (120-day expiry) before
   * the return is taken off it.
   */
  method ProcessSalesReturn(db: Database, ret: ReturnRecord, batch: string, now: int) returns (out: ReturnOutcome)
    modifies db`leads, db`audit, db`backups
    ensures |db.leads| == |old(db.leads)|
    ensures var found := FindOpportunityForReturn(old(db.leads), ret.gstin, ret.family);
      found.None? ==>
        && out == ReturnOutcome(Failed, None, 0.0, 0.0, false, [NoMatchingOpportunity(ret.gstin, ret.family)])
        && db.leads == old(db.leads) && db.audit == old(db.audit) && db.backups == old(db.backups)
    ensures var found := FindOpportunityForReturn(old(db.leads), ret.gstin, ret.family);
      found.Some? ==>
        var id := found.value;
        var l := old(db.leads[id - 1]);
        && out.oppId == Some(id)
        && db.backups == old(db.backups) + (if db.backupAvailable then [Backup(id, l, batch, now + AuditLogger.BackupLifetime)] else [])
        && (ret.volume > l.volume ==>
              && out == ReturnOutcome(Failed, Some(id), 0.0, 0.0, false, [ExcessReturn(ret.volume, l.volume)])
              && db.leads == old(db.leads) && db.audit == old(db.audit))
        && (ret.volume <= l.volume ==>
              var v := l.volume - ret.volume;
              var p := PotentialAfterReturn(l.potential, v);
              var s := StageAfterReturn(l.stage, v);
              && out == ReturnOutcome(Succeeded, Some(id), ret.volume, v, s != l.stage, ReturnMessages(l, ret.volume, v, p, s))
              && db.leads == old(db.leads)[id - 1 := Returned(l, v, p, s, batch, now)]
              && db.audit == Logged(old(db.audit), db.auditAvailable, ReturnRecords(id, l, v, p, s, ret.volume, batch)))
  {
    var found := FindOpportunityForReturn(db.leads, ret.gstin, ret.family);
    if found.None? {
      return ReturnOutcome(Failed, None, 0.0, 0.0, false, [NoMatchingOpportunity(ret.gstin, ret.family)]);
    }
    var id := found.value;
    var _ := AuditLogger.CreateBackup(db, id, batch, now);
    assert db.leads == old(db.leads) && db.audit == old(db.audit);
    out := ProcessReturn(db, id, ret, batch, now);
  }

  // ----- Properties of the return policy -----

  /**
   * An accepted return leaves a potential never below the old one, and a
   * stage that is 'Suspect' exactly when the whole volume came back and
   * 'Order' otherwise, Qualified included.
   */
  lemma ReturnPolicy(l: Lead, amount: real)
    requires amount <= l.volume
    ensures var v := l.volume - amount;
      && PotentialAfterReturn(l.potential, v) >= l.potential
      && (StageAfterReturn(l.stage, v) == "Suspect" <==> amount == l.volume)
      && (StageAfterReturn(l.stage, v) == "Order" <==> amount < l.volume)
  {
  }

  /** A return of part of a lead's volume keeps at least that much potential: never below the volume left. */
  lemma PartialReturnKeepsCapacity(l: Lead, amount: real)
    requires 0.0 <= amount < l.volume
    ensures PotentialAfterReturn(l.potential, l.volume - amount) >= l.volume - amount
  {
  }

  /**
   * A batch in which a return was logged cannot be rolled back: its
   * 'sales_return' entry names no column, so the rollback fails and changes
   * nothing.
   */
  lemma ReturnBlocksRollback(leads: seq<Lead>, audit: seq<AuditRecord>, id: nat, l: Lead, v: real, p: real, s: string,
                             amount: real, batch: string)
    ensures var recs := ReturnRecords(id, l, v, p, s, amount, batch);
      AuditLogger.ApplyChanges(leads, audit + recs, AuditLogger.Changes(audit + recs, batch)).None?
  {
    var recs := ReturnRecords(id, l, v, p, s, amount, batch);
    var i := |audit| + |recs| - 1;
    assert (audit + recs)[i] == recs[|recs| - 1];
    assert ColumnNamed("sales_return").None?;
    AuditLogger.NonColumnBlocksRollback(leads, audit + recs, batch, i);
  }
}
