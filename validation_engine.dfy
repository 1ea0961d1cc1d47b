/**
 * The older six-level engine, driven by the CSV integration processor. It
 * shares the GSTIN check, levels 4 and 5 and the volume step with the
 * enhanced engine, but differs at levels 1, 2, 3 and 6: level 1 only finds
 * active opportunities and dates a new one now, level 2 queues an action
 * without touching call plans, level 3 compares the family with the three
 * raw slots and always cross-sells a missing one, and level 6 has no tier,
 * SKU or tracker step and adds a 'New Order' opportunity from Retention.
 */
module ValidationEngine {
  import opened Store
  import opened Gstin
  import opened EngineCommon
  import EnhancedEngine

  /** Inserts the opportunity for a sale, typed as the record says ('New Customer' by default) and entered now. */
  method CreateNewOpportunity(db: Database, r: SalesRecord, batch: string, now: int) returns (id: nat)
    modifies db`leads
    ensures db.leads == old(db.leads) + [NewLead(r, r.oppType.GetOr("New Customer"), now, batch, now)]
    ensures id == |db.leads| && ValidId(db.leads, id)
  {
    id := InsertLead(db, NewLead(r, r.oppType.GetOr("New Customer"), now, batch, now));
  }

  /**
   * Level 1: a malformed GSTIN is rejected before any read or write;
   * otherwise the first active opportunity with that GSTIN is used, or one
   * is created.
   */
  method Level1(db: Database, r: SalesRecord, batch: string, now: int) returns (id: Option<nat>)
    modifies db`leads
    ensures !IsValidGstin(r.gstin) ==> id.None? && db.leads == old(db.leads)
    ensures IsValidGstin(r.gstin) && FindByGstin(old(db.leads), r.gstin, true).Some? ==>
      id == FindByGstin(old(db.leads), r.gstin, true) && db.leads == old(db.leads)
    ensures IsValidGstin(r.gstin) && FindByGstin(old(db.leads), r.gstin, true).None? ==>
      && db.leads == old(db.leads) + [NewLead(r, r.oppType.GetOr("New Customer"), now, batch, now)]
      && id == Some(|db.leads|)
    ensures id.Some? ==> (ValidId(db.leads, id.value) && db.leads[id.value - 1].gstin == r.gstin
      && db.leads[id.value - 1].status == "A")
    ensures IsValidGstin(r.gstin) ==>
      id == Some(Level1Id(old(db.leads), r, batch, now)) && db.leads == Level1Leads(old(db.leads), r, batch, now)
  {
    if !IsValidGstin(r.gstin) {
      return None;
    }
    var found := FindByGstin(db.leads, r.gstin, true);
    if found.Some? {
      id := found;
      return;
    }
    var created := CreateNewOpportunity(db, r, batch, now);
    assert db.leads[created - 1] == NewLead(r, r.oppType.GetOr("New Customer"), now, batch, now);
    id := Some(created);
  }

  /** The action text of a level-2 DSR mismatch. */
  function DsrChoiceText(opportunityDsr: string, salesDsr: string): string {
    "Choose DSR: Keep opportunity DSR (" + opportunityDsr + ") or assign to sales DSR (" + salesDsr + ")"
  }

  /**
   * Level 2: when the sale's DSR differs from the opportunity's, one
   * DSR_MISMATCH action is queued; call plans are never touched.
   */
  method Level2(db: Database, id: nat, r: SalesRecord) returns (mismatch: bool)
    requires ValidId(db.leads, id)
    modifies db`actions
    ensures mismatch <==> db.leads[id - 1].dsrName != r.dsrName
    ensures mismatch ==>
      db.actions == old(db.actions) + [DsrMismatchAction(r.gstin, r.dsrName, db.leads[id - 1].dsrName,
                                         DsrChoiceText(db.leads[id - 1].dsrName, r.dsrName))]
    ensures !mismatch ==> db.actions == old(db.actions)
  {
    var l := db.leads[id - 1];
    mismatch := l.dsrName != r.dsrName;
    if mismatch {
      CreateDsmAction(db, DsrMismatchAction(r.gstin, r.dsrName, l.dsrName, DsrChoiceText(l.dsrName, r.dsrName)));
    }
  }

  /** Whether `family` is one of the three slots, empty slots included (`in_array` over the raw slots). */
  predicate Listed(l: Lead, family: string) {
    family == l.product1 || family == l.product2 || family == l.product3
  }

  /** The cross-sell opportunity level 3 inserts: the sale, typed 'Cross-Sell', entered now. */
  function CrossSellLead(r: SalesRecord, batch: string, now: int): Lead {
    NewLead(r, "Cross-Sell", now, batch, now)
  }

  /**
   * Level 3: a family that is not in any of the three slots always creates
   * a 'Cross-Sell' opportunity; there is no previous-year check and no split.
   */
  method Level3(db: Database, id: nat, r: SalesRecord, batch: string, now: int) returns (crossSell: bool)
    requires ValidId(db.leads, id)
    modifies db`leads
    ensures crossSell <==> !Listed(old(db.leads[id - 1]), r.family)
    ensures crossSell ==> db.leads == old(db.leads) + [CrossSellLead(r, batch, now)]
    ensures !crossSell ==> db.leads == old(db.leads)
  {
    var l := db.leads[id - 1];
    crossSell := !(r.family in [l.product1, l.product2, l.product3]);
    if crossSell {
      var _ := CreateNewOpportunity(db, r.(oppType := Some("Cross-Sell")), batch, now);
    }
  }

  // ----- Level 6 -----

  /** The 'New Order' opportunity level 6 inserts from a Retention lead: the sale, entered now. */
  function NewOrderLead(r: SalesRecord, batch: string, now: int): Lead {
    NewLead(r, "New Order", now, batch, now)
  }

  /** The opportunities level 6 inserts: a 'New Order' one when a Retention lead's SKU was not sold last year. */
  function Level6Inserted(l: Lead, r: SalesRecord, skuSoldLastYear: bool, batch: string, now: int): (s: seq<Lead>)
    ensures |s| <= 1
    ensures |s| == 1 <==> l.stage == "Retention" && !skuSoldLastYear
  {
    if RetentionWithoutHistory(l.stage, skuSoldLastYear) then [NewOrderLead(r, batch, now)] else []
  }

  /** What level 6 inserts is at 'Order', carries the sale's volume and is typed 'New Order'. */
  lemma Level6InsertedShape(l: Lead, r: SalesRecord, skuSoldLastYear: bool, batch: string, now: int)
    ensures forall x :: x in Level6Inserted(l, r, skuSoldLastYear, batch, now) ==>
      x.stage == "Order" && x.volume == r.volume && x.oppType == "New Order"
  {
  }

  /** The message of the stage table, if any. */
  function StageMessages(stage: string, skuSoldLastYear: bool): seq<Msg> {
    if MovesToOrder(stage) then [StageUpdatedToOrder]
    else if stage == "Retention" then
      (if skuSoldLastYear then [RetentionMaintained] else [NewOrderFromRetention])
    else []
  }

  /** The messages of level 6, in the order they are produced. */
  function Level6Messages(l: Lead, sale: real, skuSoldLastYear: bool): (m: seq<Msg>)
    ensures |m| >= 1 && m[|m| - 1] == VolumeUpdated(l.volume, sale, l.volume + sale)
    ensures PotentialUpdated in m <==> l.volume + sale > l.potential
    ensures StageUpdatedToOrder in m <==> MovesToOrder(l.stage)
  {
    var m := StageMessages(l.stage, skuSoldLastYear)
      + (if l.volume + sale > l.potential then [PotentialUpdated] else [])
      + [VolumeUpdated(l.volume, sale, l.volume + sale)];
    assert PotentialUpdated !in StageMessages(l.stage, skuSoldLastYear);
    assert StageUpdatedToOrder in m ==> StageUpdatedToOrder in StageMessages(l.stage, skuSoldLastYear);
    m
  }

  /** Level 6's messages read only the stage, volume and potential of the opportunity. */
  lemma Level6MessagesOfFields(a: Lead, b: Lead, sale: real, skuSoldLastYear: bool)
    requires a.stage == b.stage && a.volume == b.volume && a.potential == b.potential
    ensures Level6Messages(a, sale, skuSoldLastYear) == Level6Messages(b, sale, skuSoldLastYear)
  {
  }

  /** The stage table: SPANCOP, Lost and Sleep move to Order; Retention may add a 'New Order' opportunity. */
  method StageStep(db: Database, id: nat, l: Lead, r: SalesRecord, skuSoldLastYear: bool, batch: string, now: int)
    requires ValidId(db.leads, id) && db.leads[id - 1] == l
    modifies db`leads, db`audit
    ensures db.leads == (old(db.leads) + Level6Inserted(l, r, skuSoldLastYear, batch, now))
                        [id - 1 := if MovesToOrder(l.stage) then Touched(l, LeadStatus, Text("Order"), batch, now) else l]
    ensures db.audit == Logged(old(db.audit), db.auditAvailable, StageRecords(id, l, batch))
  {
    if MovesToOrder(l.stage) {
      UpdateOpportunityField(db, id, LeadStatus, Text("Order"), batch, now);
    } else if l.stage == "Retention" && !skuSoldLastYear {
      var _ := CreateNewOpportunity(db, r.(oppType := Some("New Order")), batch, now);
    }
  }

  /**
   * Level 6: the stage table, then the sale added to the converted volume
   * and the potential raised to it when exceeded.
   */
  method Level6(db: Database, id: nat, r: SalesRecord, skuSoldLastYear: bool, batch: string, now: int) returns (msgs: seq<Msg>)
    requires ValidId(db.leads, id)
    modifies db`leads, db`audit
    ensures db.leads == (old(db.leads) + Level6Inserted(old(db.leads[id - 1]), r, skuSoldLastYear, batch, now))
                        [id - 1 := AfterSale(old(db.leads[id - 1]), r.volume, batch, now)]
    ensures db.audit == Logged(old(db.audit), db.auditAvailable, Level6Records(id, old(db.leads[id - 1]), r.volume, batch))
    ensures msgs == Level6Messages(old(db.leads[id - 1]), r.volume, skuSoldLastYear)
  {
    var l := db.leads[id - 1];
    var newVolume := l.volume + r.volume;
    msgs := StageMessages(l.stage, skuSoldLastYear);
    if newVolume > l.potential {
      msgs := msgs + [PotentialUpdated];
    }
    msgs := msgs + [VolumeUpdated(l.volume, r.volume, newVolume)];
    assert msgs == Level6Messages(l, r.volume, skuSoldLastYear);
    ghost var leads0 := db.leads;
    ghost var audit0 := db.audit;
    StageStep(db, id, l, r, skuSoldLastYear, batch, now);
    VolumeStep(db, id, l, r.volume, batch, now);
    LoggedTwice(audit0, db.auditAvailable, StageRecords(id, l, batch), VolumeRecords(id, l, r.volume, batch));
    AfterSaleSteps(leads0 + Level6Inserted(l, r, skuSoldLastYear, batch, now), id, l, r.volume, batch, now);
  }

  // ----- The whole record -----

  /** The opportunity table after level 1: unchanged when an active row has the GSTIN, one row longer otherwise. */
  function Level1Leads(leads: seq<Lead>, r: SalesRecord, batch: string, now: int): (s: seq<Lead>)
    ensures FindByGstin(leads, r.gstin, true).Some? ==> s == leads
    ensures FindByGstin(leads, r.gstin, true).None? ==>
      s == leads + [NewLead(r, r.oppType.GetOr("New Customer"), now, batch, now)]
  {
    if FindByGstin(leads, r.gstin, true).Some? then leads
    else leads + [NewLead(r, r.oppType.GetOr("New Customer"), now, batch, now)]
  }

  /** The opportunity level 1 settles on: the first active one with the GSTIN, or the one it creates. */
  function Level1Id(leads: seq<Lead>, r: SalesRecord, batch: string, now: int): (id: nat)
    ensures ValidId(Level1Leads(leads, r, batch, now), id)
    ensures Level1Leads(leads, r, batch, now)[id - 1].gstin == r.gstin
    ensures Level1Leads(leads, r, batch, now)[id - 1].status == "A"
    ensures FindByGstin(leads, r.gstin, true).None? ==> id == |leads| + 1
  {
    match FindByGstin(leads, r.gstin, true)
    case Some(k) => k
    case None => |leads| + 1
  }

  /** The action codes of one record: level 2's, then level 3's. */
  function RecordActions(l: Lead, r: SalesRecord): (a: seq<string>)
    ensures |a| <= 2
    ensures "DSR_MISMATCH_ACTION_CREATED" in a <==> l.dsrName != r.dsrName
    ensures "CROSS_SELL_OPPORTUNITY_CREATED" in a <==> !Listed(l, r.family)
  {
    (if l.dsrName != r.dsrName then ["DSR_MISMATCH_ACTION_CREATED"] else [])
    + (if !Listed(l, r.family) then ["CROSS_SELL_OPPORTUNITY_CREATED"] else [])
  }

  /** The opportunities levels 3 and 6 insert, in order: the cross-sell, then the 'New Order' one. */
  function RecordInserted(l: Lead, r: SalesRecord, skuSoldLastYear: bool, batch: string, now: int): seq<Lead> {
    (if !Listed(l, r.family) then [CrossSellLead(r, batch, now)] else [])
    + Level6Inserted(l, r, skuSoldLastYear, batch, now)
  }

  /** The action rows one record queues: level 2's DSR_MISMATCH action when the DSRs differ, nothing otherwise. */
  function QueuedActions(l: Lead, r: SalesRecord): (a: seq<Action>)
    ensures |a| <= 1 && (|a| == 1 <==> l.dsrName != r.dsrName)
    ensures forall x :: x in a ==> x.level == 2 && x.gstin == r.gstin && x.salesDsr == r.dsrName && x.opportunityDsr == l.dsrName
  {
    if l.dsrName != r.dsrName then [DsrMismatchAction(r.gstin, r.dsrName, l.dsrName, DsrChoiceText(l.dsrName, r.dsrName))] else []
  }

  /** The audit records of one record, in order: levels 4 and 5, then level 6. */
  function RecordAudit(id: nat, l: Lead, r: SalesRecord, batch: string): seq<AuditRecord> {
    SectorRecords(id, l, r, batch) + Level6Records(id, l, r.volume, batch)
  }

  /**
   * The result of a record whose opportunity `id` stood as `l` after level 1:
   * success, the action codes of levels 2 and 3, and the messages of levels
   * 4 to 6; this engine reports no call-plan, up-sell, SKU or tracker result.
   */
  predicate Reports(out: Outcome, id: nat, l: Lead, r: SalesRecord, skuSoldLastYear: bool) {
    && out.status == Succeeded && out.oppId == Some(id) && out.error.None?
    && out.actions == RecordActions(l, r)
    && out.messages == SectorMessages(l, r) + Level6Messages(l, r.volume, skuSoldLastYear)
    && !out.callPlansUpdated && !out.upSellCreated && !out.skuUpdated && out.discrepancy.None?
  }

  /**
   * How the opportunity `l` stands after a sale: same customer and the same
   * three product slots, the sale added to its volume, stage by the stage
   * table, potential raised to the new volume when exceeded, the sale's
   * sector and sub-sector, same type and entered date, integration-managed.
   */
  predicate Settled(t: Lead, l: Lead, r: SalesRecord) {
    && t.gstin == l.gstin && t.volume == l.volume + r.volume && t.stage == StageAfterSale(l.stage)
    && t.potential == RaisedPotential(l.potential, l.volume + r.volume)
    && t.product1 == l.product1 && t.product2 == l.product2 && t.product3 == l.product3
    && t.sector == r.sector && t.subSector == (if l.subSector != r.subSector then SubSectorTarget(r.subSector) else l.subSector)
    && t.oppType == l.oppType && t.enteredDate == l.enteredDate && t.managed
  }

  /** Level 6 on an opportunity that levels 2 to 5 left as `l5` settles the sale on `l`. */
  lemma SettledAfterLevels(t: Lead, l5: Lead, l: Lead, r: SalesRecord, batch: string, now: int)
    requires t == AfterSale(l5, r.volume, batch, now)
    requires l5.volume == l.volume && l5.stage == l.stage && l5.potential == l.potential && l5.gstin == l.gstin
    requires l5.oppType == l.oppType && l5.enteredDate == l.enteredDate
    requires l5.product1 == l.product1 && l5.product2 == l.product2 && l5.product3 == l.product3
    requires l5.sector == r.sector && l5.subSector == (if l.subSector != r.subSector then SubSectorTarget(r.subSector) else l.subSector)
    ensures Settled(t, l, r)
  {
  }

  /** The opportunity `l` after levels 2 to 6: levels 4 and 5 rewrite its sector and sub-sector, then level 6 adds the sale. */
  function ReconciledLead(l: Lead, r: SalesRecord, batch: string, now: int): (t: Lead)
    ensures Settled(t, l, r)
    ensures t.dsrId == l.dsrId && t.dsrName == l.dsrName && t.cusName == l.cusName && t.status == l.status
    ensures t.lastUpdated == l.lastUpdated && t.batchId == batch && t.lastIntegrationUpdate == now
  {
    SettledAfterLevels(AfterSale(SectorLead(l, r, batch, now), r.volume, batch, now), SectorLead(l, r, batch, now), l, r, batch, now);
    AfterSale(SectorLead(l, r, batch, now), r.volume, batch, now)
  }

  /**
   * The opportunity table after levels 2 to 6 on row `id`: the cross-sell
   * and 'New Order' rows appended, row `id` reconciled, every other row
   * unchanged.
   */
  function RecordLeads(leads: seq<Lead>, id: nat, r: SalesRecord, skuSoldLastYear: bool, batch: string, now: int): (s: seq<Lead>)
    requires ValidId(leads, id)
    ensures |s| == |leads| + |RecordInserted(leads[id - 1], r, skuSoldLastYear, batch, now)|
    ensures ValidId(s, id) && s[id - 1] == ReconciledLead(leads[id - 1], r, batch, now)
    ensures forall j :: 0 <= j < |leads| && j != id - 1 ==> s[j] == leads[j]
    ensures s[|leads|..] == RecordInserted(leads[id - 1], r, skuSoldLastYear, batch, now)
  {
    (leads + RecordInserted(leads[id - 1], r, skuSoldLastYear, batch, now))[id - 1 := ReconciledLead(leads[id - 1], r, batch, now)]
  }

  /** Levels 2 and 3 on the opportunity `id`. */
  method EarlyLevels(db: Database, id: nat, r: SalesRecord, batch: string, now: int) returns (mismatch: bool, crossSell: bool)
    requires ValidId(db.leads, id)
    modifies db`leads, db`actions
    ensures mismatch == (old(db.leads[id - 1]).dsrName != r.dsrName)
    ensures crossSell == !Listed(old(db.leads[id - 1]), r.family)
    ensures db.leads == old(db.leads) + (if crossSell then [CrossSellLead(r, batch, now)] else [])
    ensures ValidId(db.leads, id) && db.leads[id - 1] == old(db.leads[id - 1])
    ensures db.actions == old(db.actions) + QueuedActions(old(db.leads[id - 1]), r)
  {
    mismatch := Level2(db, id, r);
    crossSell := Level3(db, id, r, batch, now);
  }


  /**
   * Levels 4 and 5 (row `id` rewritten) and then level 6 (rows appended, row
   * `id` rewritten again) give the table and the log that `LateLevels`
   * promises.
   */
  lemma LateLevelsCompose(leads: seq<Lead>, audit: seq<AuditRecord>, available: bool, id: nat, r: SalesRecord,
                          skuSoldLastYear: bool, batch: string, now: int)
    requires ValidId(leads, id)
    ensures var l := leads[id - 1];
      var l5 := SectorLead(l, r, batch, now);
      && (leads[id - 1 := l5] + Level6Inserted(l5, r, skuSoldLastYear, batch, now))[id - 1 := AfterSale(l5, r.volume, batch, now)]
         == (leads + Level6Inserted(l, r, skuSoldLastYear, batch, now))[id - 1 := ReconciledLead(l, r, batch, now)]
      && Logged(Logged(audit, available, SectorRecords(id, l, r, batch)), available, Level6Records(id, l5, r.volume, batch))
         == Logged(audit, available, RecordAudit(id, l, r, batch))
  {
    var l := leads[id - 1];
    var l5 := SectorLead(l, r, batch, now);
    var inserted := Level6Inserted(l, r, skuSoldLastYear, batch, now);
    assert Level6Inserted(l5, r, skuSoldLastYear, batch, now) == inserted;
    assert leads + [] == leads;
    RewriteAroundAppend(leads, [], inserted, id, l5, AfterSale(l5, r.volume, batch, now));
    Level6RecordsOfFields(id, l5, l, r.volume, batch);
    LoggedTwice(audit, available, SectorRecords(id, l, r, batch), Level6Records(id, l, r.volume, batch));
  }

  /**
   * Levels 4 to 6 on the opportunity `id`: level 6's rows appended, row `id`
   * reconciled, and the records of levels 4 to 6 logged.
   */
  method LateLevels(db: Database, id: nat, r: SalesRecord, skuSoldLastYear: bool, batch: string, now: int)
    returns (sectorMsgs: seq<Msg>, m6: seq<Msg>)
    requires ValidId(db.leads, id)
    modifies db`leads, db`audit
    ensures db.leads == (old(db.leads) + Level6Inserted(old(db.leads[id - 1]), r, skuSoldLastYear, batch, now))
                        [id - 1 := ReconciledLead(old(db.leads[id - 1]), r, batch, now)]
    ensures db.audit == Logged(old(db.audit), db.auditAvailable, RecordAudit(id, old(db.leads[id - 1]), r, batch))
    ensures sectorMsgs == SectorMessages(old(db.leads[id - 1]), r)
    ensures m6 == Level6Messages(old(db.leads[id - 1]), r.volume, skuSoldLastYear)
  {
    ghost var leads0 := db.leads;
    ghost var audit0 := db.audit;
    ghost var l := db.leads[id - 1];
    sectorMsgs := SectorLevels(db, id, r, batch, now);
    ghost var l5 := db.leads[id - 1];
    assert l5 == SectorLead(l, r, batch, now);
    m6 := Level6(db, id, r, skuSoldLastYear, batch, now);
    Level6MessagesOfFields(l5, l, r.volume, skuSoldLastYear);
    LateLevelsCompose(leads0, audit0, db.auditAvailable, id, r, skuSoldLastYear, batch, now);
  }

  /** Level 3's cross-sell appended, then levels 4 to 6 on row `id`, give `RecordLeads`. */
  lemma RecordLeadsOfLevels(leads: seq<Lead>, crossSells: seq<Lead>, id: nat, r: SalesRecord, skuSoldLastYear: bool, batch: string, now: int)
    requires ValidId(leads, id)
    requires crossSells == if !Listed(leads[id - 1], r.family) then [CrossSellLead(r, batch, now)] else []
    ensures ((leads + crossSells) + Level6Inserted(leads[id - 1], r, skuSoldLastYear, batch, now))[id - 1 := ReconciledLead(leads[id - 1], r, batch, now)]
      == RecordLeads(leads, id, r, skuSoldLastYear, batch, now)
  {
    assert leads + crossSells + Level6Inserted(leads[id - 1], r, skuSoldLastYear, batch, now) == leads + RecordInserted(leads[id - 1], r, skuSoldLastYear, batch, now);
  }

  /** Levels 2 to 6 on the opportunity `id`, with what each reports. */
  method RunLevels(db: Database, id: nat, r: SalesRecord, skuSoldLastYear: bool, batch: string, now: int)
    returns (mismatch: bool, crossSell: bool, sectorMsgs: seq<Msg>, m6: seq<Msg>)
    requires ValidId(db.leads, id)
    modifies db`leads, db`audit, db`actions
    ensures ValidId(db.leads, id)
    ensures var l := old(db.leads[id - 1]);
      && mismatch == (l.dsrName != r.dsrName) && crossSell == !Listed(l, r.family)
      && sectorMsgs == SectorMessages(l, r) && m6 == Level6Messages(l, r.volume, skuSoldLastYear)
    ensures Settled(db.leads[id - 1], old(db.leads[id - 1]), r)
    ensures |db.leads| == |old(db.leads)| + |RecordInserted(old(db.leads[id - 1]), r, skuSoldLastYear, batch, now)|
    ensures db.leads == RecordLeads(old(db.leads), id, r, skuSoldLastYear, batch, now)
    ensures db.audit == Logged(old(db.audit), db.auditAvailable, RecordAudit(id, old(db.leads[id - 1]), r, batch))
    ensures db.actions == old(db.actions) + QueuedActions(old(db.leads[id - 1]), r)
  {
    ghost var leads0 := db.leads;
    ghost var l := db.leads[id - 1];
    mismatch, crossSell := EarlyLevels(db, id, r, batch, now);
    ghost var crossSells := if crossSell then [CrossSellLead(r, batch, now)] else [];
    sectorMsgs, m6 := LateLevels(db, id, r, skuSoldLastYear, batch, now);
    RecordLeadsOfLevels(leads0, crossSells, id, r, skuSoldLastYear, batch, now);
  }

  /** Levels 2 to 6 on the opportunity `id` that level 1 settled on. */
  method Reconcile(db: Database, id: nat, r: SalesRecord, skuSoldLastYear: bool, batch: string, now: int) returns (out: Outcome)
    requires ValidId(db.leads, id)
    modifies db`leads, db`audit, db`actions
    ensures ValidId(db.leads, id)
    ensures Reports(out, id, old(db.leads[id - 1]), r, skuSoldLastYear)
    ensures Settled(db.leads[id - 1], old(db.leads[id - 1]), r)
    ensures |db.leads| == |old(db.leads)| + |RecordInserted(old(db.leads[id - 1]), r, skuSoldLastYear, batch, now)|
    ensures db.leads == RecordLeads(old(db.leads), id, r, skuSoldLastYear, batch, now)
    ensures db.audit == Logged(old(db.audit), db.auditAvailable, RecordAudit(id, old(db.leads[id - 1]), r, batch))
    ensures db.actions == old(db.actions) + QueuedActions(old(db.leads[id - 1]), r)
  {
    var mismatch, crossSell, sectorMsgs, m6 := RunLevels(db, id, r, skuSoldLastYear, batch, now);
    out := Outcome(
      status := Succeeded,
      oppId := Some(id),
      actions := (if mismatch then ["DSR_MISMATCH_ACTION_CREATED"] else [])
        + (if crossSell then ["CROSS_SELL_OPPORTUNITY_CREATED"] else []),
      messages := sectorMsgs + m6,
      upSellCreated := false,
      callPlansUpdated := false,
      discrepancy := None,
      skuUpdated := false,
      error := None);
  }

  /**
   * Runs one sales record through the six levels. A malformed GSTIN fails
   * before anything is read or written; otherwise the record succeeds, and
   * the opportunity level 1 settles on ends with the sale added to its
   * volume, its stage moved by the stage table, its product slots as they
   * were, and the sale's sector and sub-sector. Call plans, SKU rows and the
   * discrepancy table are never written.
   */
  method ValidateSalesRecord(db: Database, r: SalesRecord, skuSoldLastYear: bool, batch: string, now: int) returns (out: Outcome)
    modifies db`leads, db`audit, db`actions
    ensures !IsValidGstin(r.gstin) ==>
      && out == InvalidGstinOutcome(r.gstin)
      && db.leads == old(db.leads) && db.audit == old(db.audit) && db.actions == old(db.actions)
    ensures IsValidGstin(r.gstin) ==>
      var id := Level1Id(old(db.leads), r, batch, now);
      var l := Level1Leads(old(db.leads), r, batch, now)[id - 1];
      && ValidId(db.leads, id)
      && Reports(out, id, l, r, skuSoldLastYear)
      && Settled(db.leads[id - 1], l, r)
      && db.leads == RecordLeads(Level1Leads(old(db.leads), r, batch, now), id, r, skuSoldLastYear, batch, now)
      && db.audit == Logged(old(db.audit), db.auditAvailable, RecordAudit(id, l, r, batch))
      && db.actions == old(db.actions) + QueuedActions(l, r)
  {
    var found := Level1(db, r, batch, now);
    if found.None? {
      return InvalidGstinOutcome(r.gstin);
    }
    ghost var leads1 := db.leads;
    out := Reconcile(db, found.value, r, skuSoldLastYear, batch, now);
    assert Reports(out, found.value, leads1[found.value - 1], r, skuSoldLastYear);
  }

  // ----- Properties of a whole record -----

  /**
   * A new customer: the row is created entered now with the sale volume, and
   * level 6 adds the sale again, so the opportunity ends at twice the sale,
   * at stage 'Order', typed 'New Customer' unless the record says otherwise.
   */
  lemma NewCustomerVolumeDoubles(leads: seq<Lead>, r: SalesRecord, batch: string, now: int, t: Lead)
    requires FindByGstin(leads, r.gstin, true).None?
    requires Settled(t, Level1Leads(leads, r, batch, now)[Level1Id(leads, r, batch, now) - 1], r)
    ensures Level1Id(leads, r, batch, now) == |leads| + 1
    ensures t.volume == r.volume + r.volume && t.stage == "Order" && t.gstin == r.gstin
    ensures t.oppType == r.oppType.GetOr("New Customer") && t.enteredDate == now
  {
    var l := NewLead(r, r.oppType.GetOr("New Customer"), now, batch, now);
    assert Level1Leads(leads, r, batch, now)[|leads|] == l;
  }

  /**
   * Only active opportunities are found: a customer whose every row is
   * soft-deleted gets a new opportunity, which is appended after them.
   */
  lemma DeletedRowsIgnored(leads: seq<Lead>, r: SalesRecord, batch: string, now: int)
    requires forall j :: 0 <= j < |leads| ==> leads[j].status != "A"
    ensures Level1Id(leads, r, batch, now) == |leads| + 1
    ensures Level1Leads(leads, r, batch, now) == leads + [NewLead(r, r.oppType.GetOr("New Customer"), now, batch, now)]
  {
  }

  /**
   * Level 3 of this engine against the enhanced one: a family missing from a
   * lead that the customer bought last year is only noted by the enhanced
   * engine but always cross-sold here; and a sale with an empty family on a
   * lead with an empty slot is cross-sold by the enhanced engine (it ignores
   * empty slots) but not here.
   */
  lemma Level3Differs(l: Lead, family: string)
    ensures !Listed(l, family) ==> EnhancedEngine.Decide(l, family, true) == EnhancedEngine.RetentionNote
    ensures family == "" && l.product3 == "" ==>
      Listed(l, family) && EnhancedEngine.Decide(l, family, false) == EnhancedEngine.CrossSell
  {
    EnhancedEngine.SlotsCounted(l, family);
    assert family !in EnhancedEngine.FilledSlots(l) <== !Listed(l, family);
    if family == "" {
      assert family !in EnhancedEngine.FilledSlots(l);
    }
  }
}
