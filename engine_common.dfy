/**
 * What the two validation engines share: the incoming sales record, the
 * values they look up outside the modelled tables, the messages and result
 * they report, and the helpers both of them use to create an opportunity,
 * overwrite one of its fields under audit, and queue an action.
 */
module EngineCommon {
  import opened Store
  import AuditLogger

  /**
   * One sales record as the engines receive it. `tier`, `oppType` and
   * `originalEnteredDate` are the optional keys `tire_type`,
   * `opportunity_type` and `original_entered_date`; `volume` is the numeric
   * value of the `volume` field.
   */
  datatype SalesRecord = SalesRecord(
    gstin: string,
    customerName: string,
    dsrName: string,
    family: string,
    sku: string,
    volume: real,
    sector: string,
    subSector: string,
    tier: Option<string>,
    oppType: Option<string>,
    originalEnteredDate: Option<int>)

  /**
   * The answers of the read-only sales history for one record: whether the
   * customer bought the product family, and the SKU, in the previous calendar
   * year, and the tier of the most recent history row of an SKU already on
   * the opportunity.
   */
  datatype Lookups = Lookups(familySoldLastYear: bool, skuSoldLastYear: bool, latestTier: Option<string>)

  /** The human-readable messages an engine reports, one constructor per message text. */
  datatype Msg =
    | CallPlansReassigned
    | SectorUpdated(from: string, to: string)
    | SubSectorCleared
    | SubSectorUpdated(to: string)
    | UpSellTiers(fromTier: string, toTier: string)
    | StageUpdatedToOrder
    | RetentionMaintained
    | NewProductFromRetention
    | NewOrderFromRetention
    | PotentialUpdated
    | VolumeUpdated(before: real, sale: real, after: real)
    | UpSellCreated
    | SkuDetailsUpdated
    | DiscrepancyTracked

  datatype Status = Succeeded | Failed

  /** The variance the discrepancy tracker reports. */
  datatype DiscrepancySummary = DiscrepancySummary(kind: DiscrepancyType, volume: real, percentage: real)

  /**
   * The result of validating one record. `error` is the message of a
   * rejected GSTIN; `actions` are the action codes of the levels that acted.
   */
  datatype Outcome = Outcome(
    status: Status,
    oppId: Option<nat>,
    actions: seq<string>,
    messages: seq<Msg>,
    upSellCreated: bool,
    callPlansUpdated: bool,
    discrepancy: Option<DiscrepancySummary>,
    skuUpdated: bool,
    error: Option<string>)

  /** The result of a record whose GSTIN is rejected at level 1. */
  function InvalidGstinOutcome(gstin: string): (o: Outcome)
    ensures o.status == Failed && o.oppId.None? && o.actions == [] && o.messages == []
    ensures o.error == Some("Invalid GSTIN format: " + gstin)
  {
    Outcome(Failed, None, [], [], false, false, None, false, Some("Invalid GSTIN format: " + gstin))
  }

  /**
   * The row an engine inserts for a sale: stage 'Order', the sale's volume,
   * owned by the integration, with the sale's customer, DSR, sector,
   * sub-sector and product family in the first slot. Columns the insert does
   * not name take their defaults (DSR id 0, potential 0, status 'A').
   */
  function NewLead(r: SalesRecord, oppType: string, entered: int, batch: string, now: int): (l: Lead)
    ensures l.gstin == r.gstin && l.cusName == r.customerName && l.dsrName == r.dsrName
    ensures l.sector == r.sector && l.subSector == r.subSector
    ensures l.product1 == r.family && l.product2 == "" && l.product3 == ""
    ensures l.stage == "Order" && l.volume == r.volume && l.potential == 0.0
    ensures l.oppType == oppType && l.source == "Sales Integration" && l.managed && l.status == "A"
    ensures l.batchId == batch && l.enteredDate == entered && l.lastIntegrationUpdate == now
  {
    Lead(
      cusName := r.customerName, gstin := r.gstin, dsrId := 0, dsrName := r.dsrName,
      sector := r.sector, subSector := r.subSector,
      product1 := r.family, product2 := "", product3 := "",
      stage := "Order", volume := r.volume, potential := 0.0,
      oppType := oppType, source := "Sales Integration", managed := true, batchId := batch,
      status := "A", enteredDate := entered, lastUpdated := now, lastIntegrationUpdate := now)
  }

  /** Appends a new opportunity row and returns its id. */
  method InsertLead(db: Database, l: Lead) returns (id: nat)
    modifies db`leads
    ensures db.leads == old(db.leads) + [l]
    ensures id == |db.leads| && ValidId(db.leads, id)
  {
    db.leads := db.leads + [l];
    id := |db.leads|;
  }

  /**
   * A lead after an engine overwrites column `c` with `v`: the column holds
   * `v`, every other column is unchanged, and the row is marked as owned by
   * the integration, with the batch and the time of the update.
   */
  function Touched(l: Lead, c: Column, v: Val, batch: string, now: int): (t: Lead)
    requires v.Num? <==> IsNumeric(c)
    ensures Get(t, c) == v
    ensures forall d: Column :: d != c ==> Get(t, d) == Get(l, d)
    ensures t.managed && t.batchId == batch && t.lastIntegrationUpdate == now
    ensures t.dsrId == l.dsrId && t.oppType == l.oppType && t.source == l.source
    ensures t.enteredDate == l.enteredDate && t.lastUpdated == l.lastUpdated
  {
    Set(l, c, v).value.(managed := true, batchId := batch, lastIntegrationUpdate := now)
  }

  /** An audit record written by an engine (actor 'SYSTEM') about a lead that exists. */
  function SysRecord(id: nat, field: string, oldValue: Val, newValue: Val, batch: string, l: Lead): AuditRecord {
    AuditRecord(id, field, oldValue, newValue, Some(l.lastUpdated), batch, "SYSTEM", Active)
  }

  /** The audit log after records `recs` are logged: appended if the table accepts writes, dropped otherwise. */
  function Logged(audit: seq<AuditRecord>, available: bool, recs: seq<AuditRecord>): (r: seq<AuditRecord>)
    ensures available ==> r == audit + recs
    ensures !available ==> r == audit
  {
    if available then audit + recs else audit
  }

  /** Logging two batches of records one after the other is logging them together. */
  lemma LoggedTwice(audit: seq<AuditRecord>, available: bool, xs: seq<AuditRecord>, ys: seq<AuditRecord>)
    ensures Logged(Logged(audit, available, xs), available, ys) == Logged(audit, available, xs + ys)
  {
    if available {
      assert audit + xs + ys == audit + (xs + ys);
    }
  }

  /** Logs one change through the audit logger, as the engines do, with actor 'SYSTEM'. */
  method LogSystemChange(db: Database, id: nat, field: string, oldValue: Val, newValue: Val, batch: string)
    requires ValidId(db.leads, id)
    modifies db`audit
    ensures db.audit == Logged(old(db.audit), db.auditAvailable, [SysRecord(id, field, oldValue, newValue, batch, db.leads[id - 1])])
  {
    var _ := AuditLogger.LogChange(db, id, field, oldValue, newValue, batch, "SYSTEM");
  }

  /**
   * Overwrites one column of an existing opportunity, marks the row as owned
   * by the integration, and logs the old and new value.
   */
  method UpdateOpportunityField(db: Database, id: nat, c: Column, v: Val, batch: string, now: int)
    requires ValidId(db.leads, id)
    requires v.Num? <==> IsNumeric(c)
    modifies db`leads, db`audit
    ensures db.leads == old(db.leads)[id - 1 := Touched(old(db.leads[id - 1]), c, v, batch, now)]
    ensures db.audit == Logged(old(db.audit), db.auditAvailable,
      [SysRecord(id, ColumnName(c), Get(old(db.leads[id - 1]), c), v, batch, old(db.leads[id - 1]))])
  {
    var l := db.leads[id - 1];
    db.leads := db.leads[id - 1 := Touched(l, c, v, batch, now)];
    LogSystemChange(db, id, ColumnName(c), Get(l, c), v, batch);
  }

  /** A queued action for a DSR mismatch at level 2, waiting for a DSM. */
  function DsrMismatchAction(gstin: string, salesDsr: string, opportunityDsr: string, required: string): (a: Action)
    ensures a.level == 2 && a.mismatchType == "DSR_MISMATCH" && a.priority == "MEDIUM"
    ensures a.status == "PENDING" && a.resolvedAt.None? && a.resolution == Unresolved
  {
    Action(gstin, 2, "DSR_MISMATCH", salesDsr, opportunityDsr, required, "MEDIUM", "PENDING", None, Unresolved)
  }

  /** Appends one row to the action queue. */
  method CreateDsmAction(db: Database, a: Action)
    modifies db`actions
    ensures db.actions == old(db.actions) + [a]
  {
    db.actions := db.actions + [a];
  }

  /** The stages that a sale moves to 'Order'. */
  predicate MovesToOrder(stage: string) {
    stage == "SPANCOP" || stage == "Lost" || stage == "Sleep"
  }

  /** The stage of an opportunity after a sale's level 6, in both engines. */
  function StageAfterSale(stage: string): (s: string)
    ensures MovesToOrder(stage) ==> s == "Order"
    ensures !MovesToOrder(stage) ==> s == stage
  {
    if MovesToOrder(stage) then "Order" else stage
  }

  /** The sub-sector level 5 writes when the sale's differs: cleared when the sale's is empty. */
  function SubSectorTarget(saleSubSector: string): (s: string)
    ensures Empty(saleSubSector) ==> s == ""
    ensures !Empty(saleSubSector) ==> s == saleSubSector
  {
    if Empty(saleSubSector) then "" else saleSubSector
  }

  /** The potential after level 6: raised to the new volume only when that volume exceeds it. */
  function RaisedPotential(potential: real, newVolume: real): (p: real)
    ensures p >= potential && p >= newVolume
    ensures p == potential || p == newVolume
  {
    if newVolume > potential then newVolume else potential
  }

  /** Level 4: the sale's sector overwrites a different one, with a message naming both. */
  method Level4(db: Database, id: nat, r: SalesRecord, batch: string, now: int) returns (msgs: seq<Msg>)
    requires ValidId(db.leads, id)
    modifies db`leads, db`audit
    ensures var l := old(db.leads[id - 1]);
      if l.sector != r.sector then
        && db.leads == old(db.leads)[id - 1 := Touched(l, Sector, Text(r.sector), batch, now)]
        && db.audit == Logged(old(db.audit), db.auditAvailable, [SysRecord(id, "sector", Text(l.sector), Text(r.sector), batch, l)])
        && msgs == [SectorUpdated(l.sector, r.sector)]
      else
        db.leads == old(db.leads) && db.audit == old(db.audit) && msgs == []
  {
    var l := db.leads[id - 1];
    msgs := [];
    if l.sector != r.sector {
      UpdateOpportunityField(db, id, Sector, Text(r.sector), batch, now);
      msgs := [SectorUpdated(l.sector, r.sector)];
    }
  }

  /**
   * Level 5: a different sub-sector is overwritten by the sale's, or cleared
   * when the sale's is empty ("" or "0").
   */
  method Level5(db: Database, id: nat, r: SalesRecord, batch: string, now: int) returns (msgs: seq<Msg>)
    requires ValidId(db.leads, id)
    modifies db`leads, db`audit
    ensures var l := old(db.leads[id - 1]);
      if l.subSector != r.subSector then
        && db.leads == old(db.leads)[id - 1 := Touched(l, SubSector, Text(SubSectorTarget(r.subSector)), batch, now)]
        && db.audit == Logged(old(db.audit), db.auditAvailable,
             [SysRecord(id, "sub_sector", Text(l.subSector), Text(SubSectorTarget(r.subSector)), batch, l)])
        && msgs == [if Empty(r.subSector) then SubSectorCleared else SubSectorUpdated(r.subSector)]
      else
        db.leads == old(db.leads) && db.audit == old(db.audit) && msgs == []
  {
    var l := db.leads[id - 1];
    msgs := [];
    if l.subSector != r.subSector {
      if Empty(r.subSector) {
        UpdateOpportunityField(db, id, SubSector, Text(""), batch, now);
        msgs := [SubSectorCleared];
      } else {
        UpdateOpportunityField(db, id, SubSector, Text(r.subSector), batch, now);
        msgs := [SubSectorUpdated(r.subSector)];
      }
    }
  }

  /** The sub-sector after level 5 is the sale's, except that an empty one ("0" included) is stored as "". */
  lemma SubSectorFollowsSale(l: Lead, r: SalesRecord, batch: string, now: int)
    requires l.subSector != r.subSector
    ensures var t := Touched(l, SubSector, Text(SubSectorTarget(r.subSector)), batch, now);
      (t.subSector == r.subSector || (Empty(r.subSector) && t.subSector == ""))
      && t.sector == l.sector && t.volume == l.volume && t.stage == l.stage
  {
    assert Get(Touched(l, SubSector, Text(SubSectorTarget(r.subSector)), batch, now), SubSector) == Text(SubSectorTarget(r.subSector));
    assert Sector != SubSector && Volume != SubSector && LeadStatus != SubSector;
  }

  /** The messages of levels 4 and 5. */
  function SectorMessages(l: Lead, r: SalesRecord): seq<Msg> {
    (if l.sector != r.sector then [SectorUpdated(l.sector, r.sector)] else [])
    + (if l.subSector != r.subSector then [if Empty(r.subSector) then SubSectorCleared else SubSectorUpdated(r.subSector)] else [])
  }

  /**
   * The opportunity `l` after levels 4 and 5: the sale's sector, and the
   * sale's sub-sector (an empty one stored as ""), each written only when it
   * differs; a row that either level writes becomes integration-managed, and
   * nothing else changes.
   */
  function SectorLead(l: Lead, r: SalesRecord, batch: string, now: int): (t: Lead)
    ensures t.sector == r.sector
    ensures t.subSector == (if l.subSector != r.subSector then SubSectorTarget(r.subSector) else l.subSector)
    ensures t.(sector := l.sector, subSector := l.subSector, managed := l.managed, batchId := l.batchId,
               lastIntegrationUpdate := l.lastIntegrationUpdate) == l
    ensures l.sector != r.sector || l.subSector != r.subSector ==> t.managed && t.batchId == batch && t.lastIntegrationUpdate == now
    ensures l.sector == r.sector && l.subSector == r.subSector ==> t == l
  {
    var l4 := if l.sector != r.sector then Touched(l, Sector, Text(r.sector), batch, now) else l;
    if l.subSector != r.subSector then Touched(l4, SubSector, Text(SubSectorTarget(r.subSector)), batch, now) else l4
  }

  /** The audit records of levels 4 and 5: the sector when it differs, then the sub-sector when it differs. */
  function SectorRecords(id: nat, l: Lead, r: SalesRecord, batch: string): seq<AuditRecord> {
    (if l.sector != r.sector then [SysRecord(id, "sector", Text(l.sector), Text(r.sector), batch, l)] else [])
    + (if l.subSector != r.subSector then [SysRecord(id, "sub_sector", Text(l.subSector), Text(SubSectorTarget(r.subSector)), batch, l)] else [])
  }

  /** Levels 4 and 5 on the opportunity `id`. */
  method SectorLevels(db: Database, id: nat, r: SalesRecord, batch: string, now: int) returns (msgs: seq<Msg>)
    requires ValidId(db.leads, id)
    modifies db`leads, db`audit
    ensures db.leads == old(db.leads)[id - 1 := SectorLead(old(db.leads[id - 1]), r, batch, now)]
    ensures db.audit == Logged(old(db.audit), db.auditAvailable, SectorRecords(id, old(db.leads[id - 1]), r, batch))
    ensures |db.leads| == |old(db.leads)|
    ensures var l := old(db.leads[id - 1]); var t := db.leads[id - 1];
      && t.volume == l.volume && t.stage == l.stage && t.potential == l.potential && t.gstin == l.gstin
      && t.oppType == l.oppType && t.enteredDate == l.enteredDate
      && t.product1 == l.product1 && t.product2 == l.product2 && t.product3 == l.product3
      && t.sector == r.sector && t.subSector == (if l.subSector != r.subSector then SubSectorTarget(r.subSector) else l.subSector)
      && msgs == SectorMessages(l, r)
    ensures db.skus == old(db.skus) && db.discrepancies == old(db.discrepancies)
    ensures db.actions == old(db.actions) && db.callPlans == old(db.callPlans)
  {
    ghost var l := db.leads[id - 1];
    ghost var audit0 := db.audit;
    var m4 := Level4(db, id, r, batch, now);
    ghost var l4 := db.leads[id - 1];
    ghost var audit4 := db.audit;
    assert l4.subSector == l.subSector && l4.lastUpdated == l.lastUpdated;
    var m5 := Level5(db, id, r, batch, now);
    msgs := m4 + m5;
    ghost var s4 := if l.sector != r.sector then [SysRecord(id, "sector", Text(l.sector), Text(r.sector), batch, l)] else [];
    ghost var s5 := if l.subSector != r.subSector then [SysRecord(id, "sub_sector", Text(l.subSector), Text(SubSectorTarget(r.subSector)), batch, l)] else [];
    assert audit4 == Logged(audit0, db.auditAvailable, s4);
    assert db.audit == Logged(audit4, db.auditAvailable, s5);
    LoggedTwice(audit0, db.auditAvailable, s4, s5);
  }

  /** The audit records of levels 4 and 5 read only the lead's sector, sub-sector and last update time. */
  lemma SectorRecordsOfFields(id: nat, a: Lead, b: Lead, r: SalesRecord, batch: string)
    requires a.sector == b.sector && a.subSector == b.subSector && a.lastUpdated == b.lastUpdated
    ensures SectorRecords(id, a, r, batch) == SectorRecords(id, b, r, batch)
  {
  }

  /**
   * The opportunity after level 6: stage by the stage table, the sale added
   * to the converted volume, the potential raised to that volume when it is
   * exceeded, and the row marked as integration-managed; nothing else changes.
   */
  function AfterSale(l: Lead, sale: real, batch: string, now: int): (t: Lead)
    ensures t.stage == StageAfterSale(l.stage)
    ensures t.volume == l.volume + sale
    ensures t.potential == RaisedPotential(l.potential, l.volume + sale) && t.potential >= t.volume
    ensures t.managed && t.batchId == batch && t.lastIntegrationUpdate == now
    ensures t.(stage := l.stage, volume := l.volume, potential := l.potential,
               managed := l.managed, batchId := l.batchId, lastIntegrationUpdate := l.lastIntegrationUpdate) == l
  {
    l.(stage := StageAfterSale(l.stage), volume := l.volume + sale,
       potential := RaisedPotential(l.potential, l.volume + sale),
       managed := true, batchId := batch, lastIntegrationUpdate := now)
  }

  /** Whether level 6 adds a 'New Product' opportunity: a Retention lead whose SKU was not sold last year. */
  predicate RetentionWithoutHistory(stage: string, skuSoldLastYear: bool) {
    stage == "Retention" && !skuSoldLastYear
  }

  /** The audit record of the stage table: one when the stage moves to 'Order', none otherwise. */
  function StageRecords(id: nat, l: Lead, batch: string): seq<AuditRecord> {
    if MovesToOrder(l.stage) then [SysRecord(id, "lead_status", Text(l.stage), Text("Order"), batch, l)] else []
  }

  /** The audit records of the volume step: the volume always, the potential when it is raised. */
  function VolumeRecords(id: nat, l: Lead, sale: real, batch: string): seq<AuditRecord> {
    [SysRecord(id, "volume_converted", Num(l.volume), Num(l.volume + sale), batch, l)]
    + (if l.volume + sale > l.potential then [SysRecord(id, "annual_potential", Num(l.potential), Num(l.volume + sale), batch, l)] else [])
  }

  /** The audit records of level 6: the stage when it moves, the volume always, the potential when it is raised. */
  function Level6Records(id: nat, l: Lead, sale: real, batch: string): (s: seq<AuditRecord>)
    ensures |s| >= 1
    ensures (exists i :: 0 <= i < |s| && s[i].field == "lead_status") <==> MovesToOrder(l.stage)
    ensures (exists i :: 0 <= i < |s| && s[i].field == "annual_potential") <==> l.volume + sale > l.potential
    ensures exists i :: 0 <= i < |s| && s[i] == SysRecord(id, "volume_converted", Num(l.volume), Num(l.volume + sale), batch, l)
  {
    var nv := l.volume + sale;
    var s := StageRecords(id, l, batch) + VolumeRecords(id, l, sale, batch);
    var k := if MovesToOrder(l.stage) then 1 else 0;
    assert s[k] == SysRecord(id, "volume_converted", Num(l.volume), Num(nv), batch, l);
    assert MovesToOrder(l.stage) ==> s[0].field == "lead_status";
    assert forall i :: k <= i < |s| ==> s[i].field != "lead_status";
    assert s[|s| - 1].field == "annual_potential" <==> nv > l.potential;
    s
  }

  /** The volume step: the sale is added to the converted volume, and the potential raised when exceeded. */
  method VolumeStep(db: Database, id: nat, l: Lead, sale: real, batch: string, now: int)
    requires ValidId(db.leads, id)
    requires db.leads[id - 1].volume == l.volume && db.leads[id - 1].potential == l.potential
    requires db.leads[id - 1].lastUpdated == l.lastUpdated
    modifies db`leads, db`audit
    ensures var t := old(db.leads[id - 1]);
      db.leads == old(db.leads)[id - 1 := t.(volume := l.volume + sale, potential := RaisedPotential(l.potential, l.volume + sale),
                                             managed := true, batchId := batch, lastIntegrationUpdate := now)]
    ensures db.audit == Logged(old(db.audit), db.auditAvailable, VolumeRecords(id, l, sale, batch))
  {
    var newVolume := l.volume + sale;
    ghost var audit0 := db.audit;
    VolumeStepRows(db.leads, id, l, sale, batch, now);
    UpdateOpportunityField(db, id, Volume, Num(newVolume), batch, now);
    if newVolume > l.potential {
      UpdateOpportunityField(db, id, Potential, Num(newVolume), batch, now);
      LoggedTwice(audit0, db.auditAvailable,
        [SysRecord(id, "volume_converted", Num(l.volume), Num(newVolume), batch, l)],
        [SysRecord(id, "annual_potential", Num(l.potential), Num(newVolume), batch, l)]);
    }
  }

  /** The two column writes of the volume step on the row `id`, and the records they log. */
  lemma VolumeStepRows(leads: seq<Lead>, id: nat, l: Lead, sale: real, batch: string, now: int)
    requires ValidId(leads, id)
    requires leads[id - 1].volume == l.volume && leads[id - 1].potential == l.potential
    requires leads[id - 1].lastUpdated == l.lastUpdated
    ensures var t := leads[id - 1];
      var nv := l.volume + sale;
      var s1 := leads[id - 1 := Touched(t, Volume, Num(nv), batch, now)];
      var done := leads[id - 1 := t.(volume := nv, potential := RaisedPotential(l.potential, nv),
                                      managed := true, batchId := batch, lastIntegrationUpdate := now)];
      && SysRecord(id, ColumnName(Volume), Get(t, Volume), Num(nv), batch, t)
         == SysRecord(id, "volume_converted", Num(l.volume), Num(nv), batch, l)
      && (nv > l.potential ==>
            && s1[id - 1 := Touched(s1[id - 1], Potential, Num(nv), batch, now)] == done
            && SysRecord(id, ColumnName(Potential), Get(s1[id - 1], Potential), Num(nv), batch, s1[id - 1])
               == SysRecord(id, "annual_potential", Num(l.potential), Num(nv), batch, l))
      && (nv <= l.potential ==> s1 == done)
  {
  }

  /** The audit records of level 6 read only the lead's stage, volume, potential and last update time. */
  lemma Level6RecordsOfFields(id: nat, a: Lead, b: Lead, sale: real, batch: string)
    requires a.stage == b.stage && a.volume == b.volume && a.potential == b.potential && a.lastUpdated == b.lastUpdated
    ensures Level6Records(id, a, sale, batch) == Level6Records(id, b, sale, batch)
  {
    assert StageRecords(id, a, batch) == StageRecords(id, b, batch);
    assert VolumeRecords(id, a, sale, batch) == VolumeRecords(id, b, sale, batch);
  }

  /** Level 6's column writes on the row `id`, one after the other, give `AfterSale`. */
  lemma AfterSaleSteps(leads: seq<Lead>, id: nat, l: Lead, sale: real, batch: string, now: int)
    requires ValidId(leads, id)
    ensures var s := if MovesToOrder(l.stage) then Touched(l, LeadStatus, Text("Order"), batch, now) else l;
      leads[id - 1 := s][id - 1 := s.(volume := l.volume + sale, potential := RaisedPotential(l.potential, l.volume + sale),
                                     managed := true, batchId := batch, lastIntegrationUpdate := now)]
      == leads[id - 1 := AfterSale(l, sale, batch, now)]
  {
  }
}
