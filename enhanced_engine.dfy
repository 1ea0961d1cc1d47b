/**
 * The six-level engine that reconciles one sales record with the opportunity
 * table: GSTIN check and lookup (level 1), DSR comparison with call-plan
 * reassignment (level 2), product-family decision (level 3), sector and
 * sub-sector overwrite (levels 4 and 5), tier, SKU, stage, volume and
 * potential update (level 6), then the volume-discrepancy tracker.
 *
 * The engine is always given an audit logger; the answers of the sales
 * history (previous-year sales, latest tier) arrive as `Lookups`.
 */
module EnhancedEngine {
  import opened Store
  import opened Gstin
  import opened EngineCommon
  import AuditLogger

  // ----- Level 3: the product-family decision -----

  /** The non-empty product-family slots of a lead, in slot order (what `array_filter` keeps). */
  function FilledSlots(l: Lead): (s: seq<string>)
    ensures |s| <= 3
    ensures forall f :: f in s <==> (f == l.product1 || f == l.product2 || f == l.product3) && !Empty(f)
  {
    (if Empty(l.product1) then [] else [l.product1])
    + (if Empty(l.product2) then [] else [l.product2])
    + (if Empty(l.product3) then [] else [l.product3])
  }

  /** Whether `family` is on one of the lead's non-empty slots. */
  predicate Carries(l: Lead, family: string) {
    !Empty(family) && (family == l.product1 || family == l.product2 || family == l.product3)
  }

  /** The number of the lead's non-empty slots. */
  function SlotCount(l: Lead): nat {
    (if Empty(l.product1) then 0 else 1) + (if Empty(l.product2) then 0 else 1) + (if Empty(l.product3) then 0 else 1)
  }

  /** `Carries` is membership in `FilledSlots`, and `SlotCount` its length. */
  lemma SlotsCounted(l: Lead, family: string)
    ensures Carries(l, family) <==> family in FilledSlots(l)
    ensures SlotCount(l) == |FilledSlots(l)|
  {
  }

  datatype FamilyDecision = CrossSell | RetentionNote | Split | NoAction

  /**
   * Level 3's decision for a sale of `family` on lead `l`: a family not on
   * the lead is a cross-sell unless the customer bought it last year (then
   * only a note is logged); a family on a lead that carries more than one
   * family is split off; a lead carrying only that family needs nothing.
   */
  function Decide(l: Lead, family: string, soldLastYear: bool): (d: FamilyDecision)
    ensures d == CrossSell <==> !Carries(l, family) && !soldLastYear
    ensures d == RetentionNote <==> !Carries(l, family) && soldLastYear
    ensures d == Split <==> Carries(l, family) && SlotCount(l) > 1
    ensures d == NoAction <==> Carries(l, family) && SlotCount(l) == 1
  {
    if !Carries(l, family) then (if soldLastYear then RetentionNote else CrossSell)
    else if SlotCount(l) > 1 then Split
    else NoAction
  }

  /** Level 3's decision in terms of the filled slots: whether the family is among them, and how many there are. */
  lemma DecideBySlots(l: Lead, family: string, soldLastYear: bool)
    ensures var d := Decide(l, family, soldLastYear);
      && (d == CrossSell <==> family !in FilledSlots(l) && !soldLastYear)
      && (d == RetentionNote <==> family !in FilledSlots(l) && soldLastYear)
      && (d == Split <==> family in FilledSlots(l) && |FilledSlots(l)| > 1)
      && (d == NoAction <==> family in FilledSlots(l) && |FilledSlots(l)| == 1)
  {
    SlotsCounted(l, family);
  }

  /** The families that stay on a lead when `family` is split off: the other non-empty slots, in order. */
  function Remaining(l: Lead, family: string): (s: seq<string>)
    ensures forall f :: f in s <==> f in FilledSlots(l) && f != family
  {
    (if l.product1 == family || Empty(l.product1) then [] else [l.product1])
    + (if l.product2 == family || Empty(l.product2) then [] else [l.product2])
    + (if l.product3 == family || Empty(l.product3) then [] else [l.product3])
  }

  /** The first element of `s`, or "" (an unset array index). */
  function SlotOr(s: seq<string>, i: nat): string {
    if i < |s| then s[i] else ""
  }

  /**
   * The lead that keeps the other families after a split: the remaining
   * families in slots 1 and 2, slot 3 cleared, and the potential reduced by
   * the sale volume but not below zero.
   */
  function SplitRemainder(l: Lead, family: string, volume: real, batch: string, now: int): (t: Lead)
    ensures t.product1 == SlotOr(Remaining(l, family), 0) && t.product2 == SlotOr(Remaining(l, family), 1)
    ensures t.product3 == ""
    ensures t.potential == if l.potential - volume > 0.0 then l.potential - volume else 0.0
    ensures t.managed && t.batchId == batch && t.lastIntegrationUpdate == now
    ensures t.(product1 := l.product1, product2 := l.product2, product3 := l.product3, potential := l.potential,
               managed := l.managed, batchId := l.batchId, lastIntegrationUpdate := l.lastIntegrationUpdate) == l
  {
    var rest := Remaining(l, family);
    var p := l.potential - volume;
    l.(product1 := SlotOr(rest, 0), product2 := SlotOr(rest, 1), product3 := "",
       potential := if p > 0.0 then p else 0.0,
       managed := true, batchId := batch, lastIntegrationUpdate := now)
  }

  /**
   * When a split happens (the sold family is on the lead), at most two
   * families remain, so slots 1 and 2 hold every one of them: no family but
   * the sold one leaves the lead, and the sold one is gone from it.
   */
  lemma SplitKeepsOtherFamilies(l: Lead, family: string, volume: real, batch: string, now: int)
    requires family in FilledSlots(l)
    ensures |Remaining(l, family)| <= 2
    ensures var t := SplitRemainder(l, family, volume, batch, now);
      && (forall f :: f in FilledSlots(l) && f != family ==> f == t.product1 || f == t.product2)
      && family != t.product1 && family != t.product2 && family != t.product3
  {
    var rest := Remaining(l, family);
    assert |rest| <= 2;
    if |rest| == 1 {
      assert rest[0] in rest;
    } else if |rest| == 2 {
      assert rest[0] in rest && rest[1] in rest;
    }
  }

  /** The potential left on the original lead by a split never exceeds what it was, and is never negative. */
  lemma SplitPotentialFloor(l: Lead, family: string, volume: real, batch: string, now: int)
    requires volume >= 0.0
    ensures var t := SplitRemainder(l, family, volume, batch, now);
      0.0 <= t.potential && (l.potential >= 0.0 ==> t.potential <= l.potential)
  {
  }

  // ----- Level 6: the tier check and the SKU rows -----

  /** Up-sell: the latest recorded tier is 'Mainstream' and the sale's tier (default 'Mainstream') is 'Premium'. */
  predicate IsTierUpgrade(latestTier: Option<string>, saleTier: Option<string>) {
    latestTier == Some("Mainstream") && saleTier.GetOr("Mainstream") == "Premium"
  }

  /** An up-sell is never detected for a sale without a tier: the default tier is the base one. */
  lemma NoTierNoUpSell(latestTier: Option<string>)
    ensures !IsTierUpgrade(latestTier, None)
  {
  }

  /** The first SKU row (lowest id) of lead `id` for SKU `sku`. */
  function FindSku(skus: seq<SkuRow>, id: nat, sku: string): (k: Option<nat>)
    ensures k.Some? ==> k.value < |skus| && skus[k.value].leadId == id && skus[k.value].sku == sku
    ensures k.Some? ==> forall j :: 0 <= j < k.value ==> !(skus[j].leadId == id && skus[j].sku == sku)
    ensures k.None? ==> forall j :: 0 <= j < |skus| ==> !(skus[j].leadId == id && skus[j].sku == sku)
    decreases |skus|
  {
    if skus == [] then None
    else
      var last := |skus| - 1;
      match FindSku(skus[..last], id, sku)
      case Some(k) => Some(k)
      case None => if skus[last].leadId == id && skus[last].sku == sku then Some(last) else None
  }

  /** The total volume the rows of lead `id` hold for SKU `sku`. */
  function SkuVolume(skus: seq<SkuRow>, id: nat, sku: string): real
    decreases |skus|
  {
    if skus == [] then 0.0
    else
      var last := skus[|skus| - 1];
      SkuVolume(skus[..|skus| - 1], id, sku) + (if last.leadId == id && last.sku == sku then last.volume else 0.0)
  }

  /** Adding `v` to row `k` adds `v` to the total of that row's lead and SKU, and leaves other totals alone. */
  lemma {:induction false} SkuVolumeUpdate(skus: seq<SkuRow>, k: nat, v: real, id: nat, sku: string)
    requires k < |skus|
    ensures var s2 := skus[k := skus[k].(volume := skus[k].volume + v)];
      SkuVolume(s2, id, sku) == SkuVolume(skus, id, sku) + (if skus[k].leadId == id && skus[k].sku == sku then v else 0.0)
    decreases |skus|
  {
    var s2 := skus[k := skus[k].(volume := skus[k].volume + v)];
    var last := |skus| - 1;
    if k < last {
      assert s2[..last] == skus[..last][k := skus[k].(volume := skus[k].volume + v)];
      SkuVolumeUpdate(skus[..last], k, v, id, sku);
    } else {
      assert s2[..last] == skus[..last];
    }
  }

  lemma SkuVolumeAppend(skus: seq<SkuRow>, row: SkuRow, id: nat, sku: string)
    ensures SkuVolume(skus + [row], id, sku) == SkuVolume(skus, id, sku) + (if row.leadId == id && row.sku == sku then row.volume else 0.0)
  {
    assert (skus + [row])[..|skus|] == skus;
  }

  /** The DSR id of the first lead (lowest id) with this DSR name, or 1 when there is none. */
  function GetDsrId(leads: seq<Lead>, dsrName: string): (d: int)
    ensures (forall j :: 0 <= j < |leads| ==> leads[j].dsrName != dsrName) ==> d == 1
    ensures (exists j :: 0 <= j < |leads| && leads[j].dsrName == dsrName) ==>
      exists j :: 0 <= j < |leads| && leads[j].dsrName == dsrName && d == leads[j].dsrId
        && forall i :: 0 <= i < j ==> leads[i].dsrName != dsrName
  {
    if leads == [] then 1
    else if leads[0].dsrName == dsrName then leads[0].dsrId
    else
      var d := GetDsrId(leads[1..], dsrName);
      assert forall i :: 1 <= i < |leads| ==> leads[i] == leads[1..][i - 1];
      d
  }

  /** Rewriting a row without changing its DSR name or DSR id leaves every DSR lookup as it was. */
  lemma {:induction false} GetDsrIdRewrite(leads: seq<Lead>, i: nat, x: Lead, dsrName: string)
    requires i < |leads| && x.dsrName == leads[i].dsrName && x.dsrId == leads[i].dsrId
    ensures GetDsrId(leads[i := x], dsrName) == GetDsrId(leads, dsrName)
  {
    if i > 0 && leads[0].dsrName != dsrName {
      assert leads[i := x][1..] == leads[1..][i - 1 := x];
      GetDsrIdRewrite(leads[1..], i - 1, x, dsrName);
    }
  }

  /**
   * The SKU rows after a sale: the sale is added to the lead's first row for
   * the SKU, or exactly one row is inserted for it (volume = sale, pack =
   * product family, added by the integration).
   */
  function SkuAfterSale(skus: seq<SkuRow>, id: nat, r: SalesRecord, dsrId: int): (s: seq<SkuRow>)
    ensures FindSku(skus, id, r.sku).Some? ==> |s| == |skus|
    ensures FindSku(skus, id, r.sku).None? ==>
      s == skus + [SkuRow(id, r.sku, r.volume, r.family, dsrId, "A", "INTEGRATION_SYSTEM")]
  {
    match FindSku(skus, id, r.sku)
    case Some(k) => skus[k := skus[k].(volume := skus[k].volume + r.volume)]
    case None => skus + [SkuRow(id, r.sku, r.volume, r.family, dsrId, "A", "INTEGRATION_SYSTEM")]
  }

  /**
   * Either way the lead's total for the SKU grows by exactly the sale volume,
   * and every other (lead, SKU) total is unchanged.
   */
  lemma SkuAfterSaleTotals(skus: seq<SkuRow>, id: nat, r: SalesRecord, dsrId: int, id2: nat, sku2: string)
    ensures var s := SkuAfterSale(skus, id, r, dsrId);
      && (id2 == id && sku2 == r.sku ==> SkuVolume(s, id2, sku2) == SkuVolume(skus, id2, sku2) + r.volume)
      && (id2 != id || sku2 != r.sku ==> SkuVolume(s, id2, sku2) == SkuVolume(skus, id2, sku2))
  {
    match FindSku(skus, id, r.sku)
    case Some(k) =>
      SkuVolumeUpdate(skus, k, r.volume, id2, sku2);
    case None =>
      SkuVolumeAppend(skus, SkuRow(id, r.sku, r.volume, r.family, dsrId, "A", "INTEGRATION_SYSTEM"), id2, sku2);
  }

  /** Records the sale against the lead's SKU row; a new row takes the DSR id looked up by the sale's DSR name. */
  method UpdateOpportunitySkuDetails(db: Database, id: nat, r: SalesRecord)
    modifies db`skus
    ensures db.skus == SkuAfterSale(old(db.skus), id, r, GetDsrId(db.leads, r.dsrName))
    ensures SkuVolume(db.skus, id, r.sku) == SkuVolume(old(db.skus), id, r.sku) + r.volume
    ensures db.leads == old(db.leads) && db.audit == old(db.audit)
  {
    ghost var after := SkuAfterSale(db.skus, id, r, GetDsrId(db.leads, r.dsrName));
    SkuAfterSaleTotals(db.skus, id, r, GetDsrId(db.leads, r.dsrName), id, r.sku);
    var existing := FindSku(db.skus, id, r.sku);
    if existing.Some? {
      var k := existing.value;
      db.skus := db.skus[k := db.skus[k].(volume := db.skus[k].volume + r.volume)];
    } else {
      var dsrId := GetDsrId(db.leads, r.dsrName);
      db.skus := db.skus + [SkuRow(id, r.sku, r.volume, r.family, dsrId, "A", "INTEGRATION_SYSTEM")];
    }
    assert db.skus == after;
  }

  // ----- Level 2: call plans -----

  /** A call plan that a DSR change reassigns: this customer's, active, and not completed. */
  predicate OpenPlan(p: CallPlan, cmkey: string) {
    p.cmkey == cmkey && p.activeStatus == "A" && p.dsrStatus != "COMPLETED"
  }

  /** The call plans after the customer `cmkey` is given to DSR `dsr`. */
  function Reassigned(plans: seq<CallPlan>, cmkey: string, dsr: string, now: int): (r: seq<CallPlan>)
    ensures |r| == |plans|
    ensures forall i :: 0 <= i < |plans| && !OpenPlan(plans[i], cmkey) ==> r[i] == plans[i]
    ensures forall i :: 0 <= i < |plans| && OpenPlan(plans[i], cmkey) ==>
      && r[i].eventUser == dsr
      && r[i].remarks == plans[i].remarks + " [DSR Changed by Integration: " + dsr + "]"
      && r[i].lastModifiedBy == "INTEGRATION_SYSTEM" && r[i].lastModifiedOn == now
      && r[i].(eventUser := plans[i].eventUser, remarks := plans[i].remarks,
               lastModifiedBy := plans[i].lastModifiedBy, lastModifiedOn := plans[i].lastModifiedOn) == plans[i]
  {
    seq(|plans|, i requires 0 <= i < |plans| =>
      if OpenPlan(plans[i], cmkey) then
        plans[i].(eventUser := dsr, lastModifiedBy := "INTEGRATION_SYSTEM", lastModifiedOn := now,
                  remarks := plans[i].remarks + " [DSR Changed by Integration: " + dsr + "]")
      else plans[i])
  }

  /** Reassigns the open call plans of the lead's customer to the new DSR. */
  method UpdateCallPlansForDsrChange(db: Database, id: nat, dsr: string, now: int)
    requires ValidId(db.leads, id)
    modifies db`callPlans
    ensures db.callPlans == Reassigned(old(db.callPlans), db.leads[id - 1].gstin, dsr, now)
  {
    db.callPlans := Reassigned(db.callPlans, db.leads[id - 1].gstin, dsr, now);
  }

  // ----- The discrepancy tracker -----

  /** The variance of a sale against an opportunity volume, and its percentage of that volume (0 for no volume). */
  function Variance(opportunityVolume: real, sale: real): (d: real) {
    sale - opportunityVolume
  }

  function Percentage(opportunityVolume: real, d: real): (p: real)
    ensures opportunityVolume <= 0.0 ==> p == 0.0
  {
    if opportunityVolume > 0.0 then d / opportunityVolume * 100.0 else 0.0
  }

  /** The classification by the sign of the variance. */
  function Classify(d: real): (k: DiscrepancyType)
    ensures k == OverSale <==> d > 0.0
    ensures k == UnderSale <==> d < 0.0
    ensures k == Match <==> d == 0.0
  {
    if d > 0.0 then OverSale else if d < 0.0 then UnderSale else Match
  }

  function Abs(x: real): real { if x < 0.0 then -x else x }

  /** Only variances of more than 5 percent or more than 100 are recorded. */
  predicate Significant(d: real, pct: real) {
    Abs(pct) > 5.0 || Abs(d) > 100.0
  }

  /**
   * Compares the sale with the opportunity's stored volume; a significant
   * variance is written as one tracking row and returned, any other gives
   * `None` and writes nothing.
   */
  method TrackVolumeDiscrepancy(db: Database, id: nat, r: SalesRecord, batch: string) returns (s: Option<DiscrepancySummary>)
    requires ValidId(db.leads, id)
    modifies db`discrepancies
    ensures var vol := db.leads[id - 1].volume;
      var d := Variance(vol, r.volume);
      var pct := Percentage(vol, d);
      if Significant(d, pct) then
        && s == Some(DiscrepancySummary(Classify(d), d, pct))
        && db.discrepancies == old(db.discrepancies) + [Discrepancy(id, r.gstin, r.family, r.sku, vol, r.volume, d, pct, Classify(d), batch)]
      else
        s.None? && db.discrepancies == old(db.discrepancies)
    ensures s == TrackerResult(db.leads[id - 1].volume, r.volume)
    ensures db.discrepancies == old(db.discrepancies) + TrackedRows(id, db.leads[id - 1].volume, r, batch)
  {
    var vol := db.leads[id - 1].volume;
    var d := r.volume - vol;
    var pct := if vol > 0.0 then d / vol * 100.0 else 0.0;
    var kind := Match;
    if d > 0.0 {
      kind := OverSale;
    } else if d < 0.0 {
      kind := UnderSale;
    }
    if Abs(pct) > 5.0 || Abs(d) > 100.0 {
      db.discrepancies := db.discrepancies + [Discrepancy(id, r.gstin, r.family, r.sku, vol, r.volume, d, pct, kind, batch)];
      return Some(DiscrepancySummary(kind, d, pct));
    }
    return None;
  }

  /**
   * The tracker runs after level 6 has added the sale to the volume, so the
   * variance it sees is minus the volume from before the sale: a sale is never
   * classified as an over-sale while volumes are non-negative.
   */
  lemma TrackerSeesUpdatedVolume(before: real, sale: real)
    requires before >= 0.0
    ensures Variance(before + sale, sale) == -before
    ensures Classify(Variance(before + sale, sale)) != OverSale
    ensures before > 0.0 ==> Classify(Variance(before + sale, sale)) == UnderSale
  {
  }

  /**
   * A new customer is created with the sale volume and level 6 adds it
   * again, so a new customer's positive sale is always recorded as an
   * under-sale of the whole sale, at minus 50 percent.
   */
  lemma NewCustomerAlwaysUnderSale(sale: real)
    requires sale > 0.0
    ensures var d := Variance(sale + sale, sale);
      d == -sale && Percentage(sale + sale, d) == -50.0 && Significant(d, Percentage(sale + sale, d))
      && Classify(d) == UnderSale
  {
    calc {
      -sale / (sale + sale);
      (-0.5 * (sale + sale)) / (sale + sale);
      -0.5;
    }
  }

  // ----- The levels -----

  /** Inserts the opportunity for a sale: type and entered date come from the record when it carries them. */
  method CreateNewOpportunity(db: Database, r: SalesRecord, batch: string, now: int) returns (id: nat)
    modifies db`leads
    ensures db.leads == old(db.leads) + [NewLead(r, r.oppType.GetOr("New Customer"), r.originalEnteredDate.GetOr(now), batch, now)]
    ensures id == |db.leads| && ValidId(db.leads, id)
  {
    id := InsertLead(db, NewLead(r, r.oppType.GetOr("New Customer"), r.originalEnteredDate.GetOr(now), batch, now));
  }

  /**
   * Level 1: a malformed GSTIN is rejected before any read or write;
   * otherwise the first opportunity with that GSTIN (whatever its status) is
   * used, or one is created.
   */
  method Level1(db: Database, r: SalesRecord, batch: string, now: int) returns (id: Option<nat>)
    modifies db`leads
    ensures !IsValidGstin(r.gstin) ==> id.None? && db.leads == old(db.leads)
    ensures IsValidGstin(r.gstin) && FindByGstin(old(db.leads), r.gstin, false).Some? ==>
      id == FindByGstin(old(db.leads), r.gstin, false) && db.leads == old(db.leads)
    ensures IsValidGstin(r.gstin) && FindByGstin(old(db.leads), r.gstin, false).None? ==>
      && db.leads == old(db.leads) + [NewLead(r, r.oppType.GetOr("New Customer"), r.originalEnteredDate.GetOr(now), batch, now)]
      && id == Some(|db.leads|)
    ensures id.Some? ==> ValidId(db.leads, id.value) && db.leads[id.value - 1].gstin == r.gstin
    ensures IsValidGstin(r.gstin) ==>
      id == Some(Level1Id(old(db.leads), r, batch, now)) && db.leads == Level1Leads(old(db.leads), r, batch, now)
  {
    if !IsValidGstin(r.gstin) {
      return None;
    }
    var found := FindByGstin(db.leads, r.gstin, false);
    if found.Some? {
      id := found;
      return;
    }
    var created := CreateNewOpportunity(db, r, batch, now);
    assert db.leads[created - 1] == NewLead(r, r.oppType.GetOr("New Customer"), r.originalEnteredDate.GetOr(now), batch, now);
    id := Some(created);
  }

  /** The action text of a level-2 DSR mismatch. */
  function DsrChangeText(opportunityDsr: string, salesDsr: string): string {
    "DSR Change: Call plans updated. Choose DSR: Keep opportunity DSR (" + opportunityDsr
      + ") or assign to sales DSR (" + salesDsr + ")"
  }

  /**
   * Level 2: when the sale's DSR differs from the opportunity's, the
   * customer's open call plans go to the sale's DSR and one DSR_MISMATCH
   * action is queued; otherwise nothing changes.
   */
  method Level2(db: Database, id: nat, r: SalesRecord, now: int) returns (mismatch: bool)
    requires ValidId(db.leads, id)
    modifies db`callPlans, db`actions
    ensures mismatch <==> db.leads[id - 1].dsrName != r.dsrName
    ensures mismatch ==>
      && db.callPlans == Reassigned(old(db.callPlans), db.leads[id - 1].gstin, r.dsrName, now)
      && db.actions == old(db.actions) + [DsrMismatchAction(r.gstin, r.dsrName, db.leads[id - 1].dsrName,
                                            DsrChangeText(db.leads[id - 1].dsrName, r.dsrName))]
    ensures !mismatch ==> db.callPlans == old(db.callPlans) && db.actions == old(db.actions)
    ensures db.actions == old(db.actions) + QueuedActions(db.leads[id - 1], r)
    ensures db.callPlans == PlansAfter(old(db.callPlans), db.leads[id - 1], r, now)
    ensures db.leads == old(db.leads) && db.audit == old(db.audit) && db.skus == old(db.skus) && db.discrepancies == old(db.discrepancies)
  {
    var l := db.leads[id - 1];
    mismatch := l.dsrName != r.dsrName;
    if mismatch {
      UpdateCallPlansForDsrChange(db, id, r.dsrName, now);
      CreateDsmAction(db, DsrMismatchAction(r.gstin, r.dsrName, l.dsrName, DsrChangeText(l.dsrName, r.dsrName)));
    }
  }

  /** The audit records of removing the sold family from a lead: the removed product and the reduced potential. */
  function RemovalRecords(id: nat, l: Lead, family: string, newPotential: real, batch: string): seq<AuditRecord> {
    [ SysRecord(id, "product_removed", Text(family), Text("Product split to new opportunity"), batch, l),
      SysRecord(id, "annual_potential", Num(l.potential), Num(newPotential), batch, l) ]
  }

  /** The audit records of a split: the removal, then the split itself. */
  function SplitRecords(id: nat, l: Lead, family: string, newPotential: real, batch: string): seq<AuditRecord> {
    RemovalRecords(id, l, family, newPotential, batch)
    + [ SysRecord(id, "opportunity_split", Text("Single opportunity with multiple products"),
                  Text("Split into separate opportunities for product: " + family), batch, l) ]
  }

  /** Collects the lead's non-empty slots other than `family`, in slot order. */
  method RemainingProducts(l: Lead, family: string) returns (remaining: seq<string>)
    ensures remaining == Remaining(l, family)
  {
    remaining := [];
    if l.product1 != family && !Empty(l.product1) {
      remaining := remaining + [l.product1];
    }
    if l.product2 != family && !Empty(l.product2) {
      remaining := remaining + [l.product2];
    }
    if l.product3 != family && !Empty(l.product3) {
      remaining := remaining + [l.product3];
    }
  }

  /** Re-packs the lead's slots without the sold family and lowers its potential by the sale, not below 0. */
  method RemoveProductFromOpportunity(db: Database, id: nat, family: string, volume: real, batch: string, now: int)
    requires ValidId(db.leads, id)
    modifies db`leads, db`audit
    ensures db.leads == old(db.leads)[id - 1 := SplitRemainder(old(db.leads[id - 1]), family, volume, batch, now)]
    ensures db.audit == Logged(old(db.audit), db.auditAvailable,
      RemovalRecords(id, old(db.leads[id - 1]), family, SplitRemainder(old(db.leads[id - 1]), family, volume, batch, now).potential, batch))
  {
    var l := db.leads[id - 1];
    ghost var audit0 := db.audit;
    var remaining := RemainingProducts(l, family);
    var p1 := if |remaining| > 0 then remaining[0] else "";
    var p2 := if |remaining| > 1 then remaining[1] else "";
    var newPotential := l.potential - volume;
    if newPotential < 0.0 {
      newPotential := 0.0;
    }
    var t := l.(product1 := p1, product2 := p2, product3 := "", potential := newPotential,
                managed := true, batchId := batch, lastIntegrationUpdate := now);
    assert p1 == SlotOr(Remaining(l, family), 0) && p2 == SlotOr(Remaining(l, family), 1);
    assert t == SplitRemainder(l, family, volume, batch, now);
    db.leads := db.leads[id - 1 := t];
    LogSystemChange(db, id, "product_removed", Text(family), Text("Product split to new opportunity"), batch);
    LogSystemChange(db, id, "annual_potential", Num(l.potential), Num(newPotential), batch);
    if db.auditAvailable {
      assert db.audit == audit0 + RemovalRecords(id, l, family, newPotential, batch);
    }
  }

  /** The opportunity level 3 inserts: a 'Cross-Sell' or a 'Product Split' one, dated like `l`, or none. */
  function Level3Inserted(l: Lead, r: SalesRecord, familySoldLastYear: bool, batch: string, now: int): (s: seq<Lead>)
    ensures |s| <= 1
  {
    match Decide(l, r.family, familySoldLastYear)
    case CrossSell => [NewLead(r, "Cross-Sell", l.enteredDate, batch, now)]
    case Split => [NewLead(r, "Product Split", l.enteredDate, batch, now)]
    case _ => []
  }

  /** The audit records of level 3: the retention note, the three records of a split, or none. */
  function Level3Records(id: nat, l: Lead, r: SalesRecord, familySoldLastYear: bool, batch: string, now: int): seq<AuditRecord> {
    match Decide(l, r.family, familySoldLastYear)
    case RetentionNote =>
      [SysRecord(id, "retention_validation", Text("No Cross-Sell needed"), Text("Previous year sales found for " + r.family), batch, l)]
    case Split => SplitRecords(id, l, r.family, SplitRemainder(l, r.family, r.volume, batch, now).potential, batch)
    case _ => []
  }

  /** A cross-sell appends its opportunity and logs nothing: the table and log `Level3Outcome` promises. */
  lemma CrossSellOutcome(leads: seq<Lead>, audit: seq<AuditRecord>, available: bool, id: nat, r: SalesRecord,
                         familySoldLastYear: bool, batch: string, now: int)
    requires ValidId(leads, id) && Decide(leads[id - 1], r.family, familySoldLastYear) == CrossSell
    ensures var l := leads[id - 1];
      && leads + [NewLead(r, "Cross-Sell", l.enteredDate, batch, now)]
         == (leads + Level3Inserted(l, r, familySoldLastYear, batch, now))[id - 1 := Level3Lead(l, r, familySoldLastYear, batch, now)]
      && audit == Logged(audit, available, Level3Records(id, l, r, familySoldLastYear, batch, now))
  {
    var l := leads[id - 1];
    var x := NewLead(r, "Cross-Sell", l.enteredDate, batch, now);
    assert Level3Inserted(l, r, familySoldLastYear, batch, now) == [x];
    assert Level3Lead(l, r, familySoldLastYear, batch, now) == l;
    assert Level3Records(id, l, r, familySoldLastYear, batch, now) == [];
    assert (leads + [x])[id - 1 := l] == leads + [x];
  }

  /** A retention note or no action leaves the table as it is: the table and log `Level3Outcome` promises. */
  lemma KeptOutcome(leads: seq<Lead>, audit: seq<AuditRecord>, available: bool, id: nat, r: SalesRecord,
                    familySoldLastYear: bool, batch: string, now: int)
    requires ValidId(leads, id)
    requires var d := Decide(leads[id - 1], r.family, familySoldLastYear); d == RetentionNote || d == NoAction
    ensures var l := leads[id - 1];
      && leads == (leads + Level3Inserted(l, r, familySoldLastYear, batch, now))[id - 1 := Level3Lead(l, r, familySoldLastYear, batch, now)]
      && (Decide(l, r.family, familySoldLastYear) == NoAction ==> audit == Logged(audit, available, Level3Records(id, l, r, familySoldLastYear, batch, now)))
  {
    assert leads + [] == leads;
  }

  /** Each of level 3's four outcomes is the table `Level3Inserted` and `Level3Lead` describe and the log `Level3Records` describes. */
  lemma Level3Outcome(leads: seq<Lead>, audit: seq<AuditRecord>, available: bool, id: nat, r: SalesRecord,
                      familySoldLastYear: bool, batch: string, now: int, leads3: seq<Lead>, audit3: seq<AuditRecord>)
    requires ValidId(leads, id)
    requires var l := leads[id - 1];
      match Decide(l, r.family, familySoldLastYear)
      case CrossSell =>
        leads3 == leads + [NewLead(r, "Cross-Sell", l.enteredDate, batch, now)] && audit3 == audit
      case RetentionNote =>
        && leads3 == leads
        && audit3 == Logged(audit, available,
             [SysRecord(id, "retention_validation", Text("No Cross-Sell needed"), Text("Previous year sales found for " + r.family), batch, l)])
      case Split =>
        && leads3 == (leads + [NewLead(r, "Product Split", l.enteredDate, batch, now)])[id - 1 := SplitRemainder(l, r.family, r.volume, batch, now)]
        && audit3 == Logged(audit, available, SplitRecords(id, l, r.family, SplitRemainder(l, r.family, r.volume, batch, now).potential, batch))
      case NoAction =>
        leads3 == leads && audit3 == audit
    ensures var l := leads[id - 1];
      && leads3 == (leads + Level3Inserted(l, r, familySoldLastYear, batch, now))[id - 1 := Level3Lead(l, r, familySoldLastYear, batch, now)]
      && audit3 == Logged(audit, available, Level3Records(id, l, r, familySoldLastYear, batch, now))
  {
    match Decide(leads[id - 1], r.family, familySoldLastYear) {
      case CrossSell => CrossSellOutcome(leads, audit, available, id, r, familySoldLastYear, batch, now);
      case Split =>
      case RetentionNote => KeptOutcome(leads, audit, available, id, r, familySoldLastYear, batch, now);
      case NoAction => KeptOutcome(leads, audit, available, id, r, familySoldLastYear, batch, now);
    }
  }

  /**
   * Level 3: acts on `Decide`'s decision. A cross-sell inserts one
   * 'Cross-Sell' opportunity dated like the original; a retention note logs
   * one record; a split inserts one 'Product Split' opportunity and re-packs
   * the original; otherwise nothing changes.
   */
  method Level3(db: Database, id: nat, r: SalesRecord, batch: string, now: int, familySoldLastYear: bool)
    returns (d: FamilyDecision)
    requires ValidId(db.leads, id)
    modifies db`leads, db`audit
    ensures d == Decide(old(db.leads[id - 1]), r.family, familySoldLastYear)
    ensures ValidId(db.leads, id) && |db.leads| >= |old(db.leads)|
    ensures db.leads[id - 1] == Level3Lead(old(db.leads[id - 1]), r, familySoldLastYear, batch, now)
    ensures db.leads == (old(db.leads) + Level3Inserted(old(db.leads[id - 1]), r, familySoldLastYear, batch, now))
                        [id - 1 := Level3Lead(old(db.leads[id - 1]), r, familySoldLastYear, batch, now)]
    ensures db.audit == Logged(old(db.audit), db.auditAvailable, Level3Records(id, old(db.leads[id - 1]), r, familySoldLastYear, batch, now))
    ensures db.skus == old(db.skus) && db.discrepancies == old(db.discrepancies)
    ensures db.actions == old(db.actions) && db.callPlans == old(db.callPlans)
    ensures var l := old(db.leads[id - 1]);
      match d
      case CrossSell =>
        && db.leads == old(db.leads) + [NewLead(r, "Cross-Sell", l.enteredDate, batch, now)]
        && db.audit == old(db.audit)
      case RetentionNote =>
        && db.leads == old(db.leads)
        && db.audit == Logged(old(db.audit), db.auditAvailable,
             [SysRecord(id, "retention_validation", Text("No Cross-Sell needed"), Text("Previous year sales found for " + r.family), batch, l)])
      case Split =>
        && db.leads == (old(db.leads) + [NewLead(r, "Product Split", l.enteredDate, batch, now)])[id - 1 := SplitRemainder(l, r.family, r.volume, batch, now)]
        && db.audit == Logged(old(db.audit), db.auditAvailable,
             SplitRecords(id, l, r.family, SplitRemainder(l, r.family, r.volume, batch, now).potential, batch))
      case NoAction =>
        db.leads == old(db.leads) && db.audit == old(db.audit)
  {
    var l := db.leads[id - 1];
    ghost var leads0 := db.leads;
    ghost var audit0 := db.audit;
    d := Decide(l, r.family, familySoldLastYear);
    match d {
      case CrossSell =>
        var _ := CreateNewOpportunity(db, r.(oppType := Some("Cross-Sell"), originalEnteredDate := Some(l.enteredDate)), batch, now);
      case RetentionNote =>
        LogSystemChange(db, id, "retention_validation", Text("No Cross-Sell needed"), Text("Previous year sales found for " + r.family), batch);
      case Split =>
        SplitOpportunityForProduct(db, id, r, batch, now);
      case NoAction =>
    }
    Level3Outcome(leads0, audit0, db.auditAvailable, id, r, familySoldLastYear, batch, now, db.leads, db.audit);
  }

  /** Splits the sold family off into its own 'Product Split' opportunity, dated like the original. */
  method SplitOpportunityForProduct(db: Database, id: nat, r: SalesRecord, batch: string, now: int)
    requires ValidId(db.leads, id)
    modifies db`leads, db`audit
    ensures var l := old(db.leads[id - 1]);
      && db.leads == (old(db.leads) + [NewLead(r, "Product Split", l.enteredDate, batch, now)])[id - 1 := SplitRemainder(l, r.family, r.volume, batch, now)]
      && db.audit == Logged(old(db.audit), db.auditAvailable,
           SplitRecords(id, l, r.family, SplitRemainder(l, r.family, r.volume, batch, now).potential, batch))
  {
    var l := db.leads[id - 1];
    var _ := CreateNewOpportunity(db, r.(oppType := Some("Product Split"), originalEnteredDate := Some(l.enteredDate)), batch, now);
    RemoveProductFromOpportunity(db, id, r.family, r.volume, batch, now);
    LogSystemChange(db, id, "opportunity_split", Text("Single opportunity with multiple products"),
      Text("Split into separate opportunities for product: " + r.family), batch);
  }

  // ----- Level 6 -----

  /** The up-sell opportunity level 6 inserts: the sale, typed 'Up-Sell', dated like the original. */
  function UpSellLead(l: Lead, r: SalesRecord, batch: string, now: int): Lead {
    NewLead(r, "Up-Sell", l.enteredDate, batch, now)
  }

  /** The up-sell level 6 inserts when the tier moves from Mainstream to Premium, none otherwise. */
  function UpSells(l: Lead, r: SalesRecord, lk: Lookups, batch: string, now: int): seq<Lead> {
    if IsTierUpgrade(lk.latestTier, r.tier) then [UpSellLead(l, r, batch, now)] else []
  }

  /** The 'New Product' opportunity level 6 inserts for a Retention lead whose SKU was not sold last year, none otherwise. */
  function NewProducts(l: Lead, r: SalesRecord, lk: Lookups, batch: string, now: int): seq<Lead> {
    if RetentionWithoutHistory(l.stage, lk.skuSoldLastYear) then [NewLead(r, "New Product", l.enteredDate, batch, now)] else []
  }

  /** The opportunities level 6 inserts, in order: the up-sell, then the new product. */
  function Level6Inserted(l: Lead, r: SalesRecord, lk: Lookups, batch: string, now: int): (s: seq<Lead>)
    ensures |s| <= 2
  {
    UpSells(l, r, lk, batch, now) + NewProducts(l, r, lk, batch, now)
  }

  /** Appending the up-sell and then the new product appends `Level6Inserted`. */
  lemma Level6InsertedAppend(leads: seq<Lead>, l: Lead, r: SalesRecord, lk: Lookups, batch: string, now: int)
    ensures leads + UpSells(l, r, lk, batch, now) + NewProducts(l, r, lk, batch, now) == leads + Level6Inserted(l, r, lk, batch, now)
  {
  }

  /**
   * Level 6 inserts an up-sell exactly when the tier moves from Mainstream to
   * Premium and a 'New Product' opportunity exactly for a Retention lead
   * whose SKU was not sold last year; both are at 'Order', carry the sale's
   * volume and are dated like the lead.
   */
  lemma Level6InsertedShape(l: Lead, r: SalesRecord, lk: Lookups, batch: string, now: int)
    ensures var s := Level6Inserted(l, r, lk, batch, now);
      && (forall x :: x in s ==> x.stage == "Order" && x.volume == r.volume && x.enteredDate == l.enteredDate)
      && (IsTierUpgrade(lk.latestTier, r.tier) <==> UpSellLead(l, r, batch, now) in s)
      && (RetentionWithoutHistory(l.stage, lk.skuSoldLastYear) <==> NewLead(r, "New Product", l.enteredDate, batch, now) in s)
  {
    assert UpSellLead(l, r, batch, now).oppType != NewLead(r, "New Product", l.enteredDate, batch, now).oppType;
  }

  /** The message of the stage table, if any. */
  function StageMessages(stage: string, skuSoldLastYear: bool): seq<Msg> {
    if MovesToOrder(stage) then [StageUpdatedToOrder]
    else if stage == "Retention" then
      (if skuSoldLastYear then [RetentionMaintained] else [NewProductFromRetention])
    else []
  }

  /** The messages of level 6, in the order they are produced. */
  function Level6Messages(l: Lead, r: SalesRecord, lk: Lookups): (m: seq<Msg>)
    ensures |m| >= 1 && m[|m| - 1] == VolumeUpdated(l.volume, r.volume, l.volume + r.volume)
    ensures |m| > 0 && m[0] == UpSellTiers("Mainstream", "Premium") <==> IsTierUpgrade(lk.latestTier, r.tier)
  {
    (if IsTierUpgrade(lk.latestTier, r.tier) then [UpSellTiers("Mainstream", "Premium")] else [])
    + StageVolumeMessages(l, r.volume, lk.skuSoldLastYear)
  }

  /** The stage table: SPANCOP, Lost and Sleep move to Order; Retention may add a 'New Product' opportunity. */
  method StageStep(db: Database, id: nat, l: Lead, r: SalesRecord, lk: Lookups, batch: string, now: int)
    requires ValidId(db.leads, id) && db.leads[id - 1] == l
    modifies db`leads, db`audit
    ensures db.leads == (old(db.leads) + NewProducts(l, r, lk, batch, now))
                        [id - 1 := if MovesToOrder(l.stage) then Touched(l, LeadStatus, Text("Order"), batch, now) else l]
    ensures db.audit == Logged(old(db.audit), db.auditAvailable, StageRecords(id, l, batch))
  {
    if MovesToOrder(l.stage) {
      UpdateOpportunityField(db, id, LeadStatus, Text("Order"), batch, now);
    } else if l.stage == "Retention" && !lk.skuSoldLastYear {
      var _ := CreateNewOpportunity(db, r.(oppType := Some("New Product"), originalEnteredDate := Some(l.enteredDate)), batch, now);
    }
  }

  /** The messages of the stage table and of the volume step. */
  function StageVolumeMessages(l: Lead, sale: real, skuSoldLastYear: bool): seq<Msg> {
    StageMessages(l.stage, skuSoldLastYear)
    + (if l.volume + sale > l.potential then [PotentialUpdated] else [])
    + [VolumeUpdated(l.volume, sale, l.volume + sale)]
  }

  /** The stage table and the volume step of level 6, on the lead `l` stored at `id`. */
  method StageAndVolume(db: Database, id: nat, l: Lead, r: SalesRecord, lk: Lookups, batch: string, now: int) returns (msgs: seq<Msg>)
    requires ValidId(db.leads, id) && db.leads[id - 1] == l
    modifies db`leads, db`audit
    ensures db.leads == (old(db.leads) + NewProducts(l, r, lk, batch, now))
                        [id - 1 := AfterSale(l, r.volume, batch, now)]
    ensures db.audit == Logged(old(db.audit), db.auditAvailable, Level6Records(id, l, r.volume, batch))
    ensures msgs == StageVolumeMessages(l, r.volume, lk.skuSoldLastYear)
    ensures db.skus == old(db.skus)
  {
    msgs := StageMessages(l.stage, lk.skuSoldLastYear);
    if l.volume + r.volume > l.potential {
      msgs := msgs + [PotentialUpdated];
    }
    msgs := msgs + [VolumeUpdated(l.volume, r.volume, l.volume + r.volume)];
    assert msgs == StageVolumeMessages(l, r.volume, lk.skuSoldLastYear);
    ghost var leads0 := db.leads;
    ghost var audit0 := db.audit;
    ghost var inserted := NewProducts(l, r, lk, batch, now);
    ghost var staged := if MovesToOrder(l.stage) then Touched(l, LeadStatus, Text("Order"), batch, now) else l;
    StageStep(db, id, l, r, lk, batch, now);
    assert db.leads == (leads0 + inserted)[id - 1 := staged];
    assert db.leads[id - 1] == staged;
    VolumeStep(db, id, l, r.volume, batch, now);
    AfterSaleSteps(leads0 + inserted, id, l, r.volume, batch, now);
    LoggedTwice(audit0, db.auditAvailable, StageRecords(id, l, batch), VolumeRecords(id, l, r.volume, batch));
  }

  /** The up-sell step of level 6: a Mainstream-to-Premium sale adds an 'Up-Sell' opportunity dated like `l`. */
  method UpSellStep(db: Database, l: Lead, r: SalesRecord, lk: Lookups, batch: string, now: int) returns (upSell: bool, msgs: seq<Msg>)
    modifies db`leads
    ensures upSell == IsTierUpgrade(lk.latestTier, r.tier)
    ensures db.leads == old(db.leads) + (if upSell then [UpSellLead(l, r, batch, now)] else [])
    ensures db.leads == old(db.leads) + UpSells(l, r, lk, batch, now)
    ensures msgs == if upSell then [UpSellTiers("Mainstream", "Premium")] else []
    ensures db.audit == old(db.audit) && db.skus == old(db.skus)
  {
    upSell := IsTierUpgrade(lk.latestTier, r.tier);
    msgs := [];
    if upSell {
      var _ := CreateNewOpportunity(db, r.(oppType := Some("Up-Sell"), originalEnteredDate := Some(l.enteredDate)), batch, now);
      msgs := [UpSellTiers("Mainstream", "Premium")];
    }
  }

  /**
   * Level 6: an up-sell opportunity when the tier moves from Mainstream to
   * Premium, the sale recorded on the SKU rows, the stage table, then the
   * volume and potential update.
   */
  method Level6(db: Database, id: nat, r: SalesRecord, lk: Lookups, batch: string, now: int) returns (upSell: bool, msgs: seq<Msg>)
    requires ValidId(db.leads, id)
    modifies db`leads, db`audit, db`skus
    ensures upSell == IsTierUpgrade(lk.latestTier, r.tier)
    ensures db.leads == (old(db.leads) + Level6Inserted(old(db.leads[id - 1]), r, lk, batch, now))
                          [id - 1 := AfterSale(old(db.leads[id - 1]), r.volume, batch, now)]
    ensures db.skus == SkuAfterSale(old(db.skus), id, r,
      GetDsrId(old(db.leads) + UpSells(old(db.leads[id - 1]), r, lk, batch, now), r.dsrName))
    ensures db.audit == Logged(old(db.audit), db.auditAvailable, Level6Records(id, old(db.leads[id - 1]), r.volume, batch))
    ensures msgs == Level6Messages(old(db.leads[id - 1]), r, lk)
    ensures SkuVolume(db.skus, id, r.sku) == SkuVolume(old(db.skus), id, r.sku) + r.volume
  {
    var l := db.leads[id - 1];
    ghost var leads0 := db.leads;
    var upSellMsgs;
    upSell, upSellMsgs := UpSellStep(db, l, r, lk, batch, now);
    ghost var upSells := UpSells(l, r, lk, batch, now);
    assert db.leads == leads0 + upSells;
    UpdateOpportunitySkuDetails(db, id, r);
    var rest := StageAndVolume(db, id, l, r, lk, batch, now);
    msgs := upSellMsgs + rest;
    Level6InsertedAppend(leads0, l, r, lk, batch, now);
  }

  // ----- The whole record -----

  /** The action code level 3 reports for its decision. */
  function Level3Actions(d: FamilyDecision): (a: seq<string>)
    ensures d == CrossSell ==> a == ["CROSS_SELL_OPPORTUNITY_CREATED"]
    ensures d == Split ==> a == ["OPPORTUNITY_SPLIT_FOR_PRODUCT"]
    ensures d == RetentionNote || d == NoAction ==> a == []
  {
    match d
    case CrossSell => ["CROSS_SELL_OPPORTUNITY_CREATED"]
    case Split => ["OPPORTUNITY_SPLIT_FOR_PRODUCT"]
    case _ => []
  }

  /** The potential of the opportunity after level 3: a split lowers it by the sale, not below 0. */
  function PotentialAfterLevel3(l: Lead, r: SalesRecord, familySoldLastYear: bool): real {
    if Decide(l, r.family, familySoldLastYear) == Split then
      (if l.potential - r.volume > 0.0 then l.potential - r.volume else 0.0)
    else l.potential
  }

  /** The summary the tracker returns for a sale against a stored volume. */
  function TrackerResult(volume: real, sale: real): (s: Option<DiscrepancySummary>)
    ensures s.Some? <==> Significant(Variance(volume, sale), Percentage(volume, Variance(volume, sale)))
    ensures s.Some? ==> s.value.kind == Classify(Variance(volume, sale)) && s.value.volume == sale - volume
  {
    var d := Variance(volume, sale);
    var pct := Percentage(volume, d);
    if Significant(d, pct) then Some(DiscrepancySummary(Classify(d), d, pct)) else None
  }

  /** The opportunity `l` after level 3: the split remainder when the family is split off, `l` itself otherwise. */
  function Level3Lead(l: Lead, r: SalesRecord, familySoldLastYear: bool, batch: string, now: int): Lead {
    if Decide(l, r.family, familySoldLastYear) == Split then SplitRemainder(l, r.family, r.volume, batch, now) else l
  }

  /** Level 3 changes only the product slots, the potential (by `PotentialAfterLevel3`) and the integration marks. */
  lemma Level3Keeps(l: Lead, r: SalesRecord, familySoldLastYear: bool, batch: string, now: int)
    ensures var t := Level3Lead(l, r, familySoldLastYear, batch, now);
      && t.volume == l.volume && t.stage == l.stage && t.sector == l.sector && t.subSector == l.subSector
      && t.gstin == l.gstin && t.lastUpdated == l.lastUpdated && t.oppType == l.oppType && t.enteredDate == l.enteredDate
      && t.potential == PotentialAfterLevel3(l, r, familySoldLastYear)
  {
  }

  /** The action rows one record queues: level 2's DSR_MISMATCH action when the DSRs differ, nothing otherwise. */
  function QueuedActions(l: Lead, r: SalesRecord): (a: seq<Action>)
    ensures |a| <= 1 && (|a| == 1 <==> l.dsrName != r.dsrName)
    ensures forall i :: 0 <= i < |a| ==> a[i].level == 2 && a[i].gstin == r.gstin && a[i].salesDsr == r.dsrName && a[i].opportunityDsr == l.dsrName
  {
    if l.dsrName != r.dsrName then [DsrMismatchAction(r.gstin, r.dsrName, l.dsrName, DsrChangeText(l.dsrName, r.dsrName))] else []
  }

  /** The call plans after one record: when the DSRs differ, the customer's open plans go to the sale's DSR. */
  function PlansAfter(plans: seq<CallPlan>, l: Lead, r: SalesRecord, now: int): (p: seq<CallPlan>)
    ensures |p| == |plans|
    ensures l.dsrName == r.dsrName ==> p == plans
    ensures forall i :: 0 <= i < |plans| && !OpenPlan(plans[i], l.gstin) ==> p[i] == plans[i]
  {
    if l.dsrName != r.dsrName then Reassigned(plans, l.gstin, r.dsrName, now) else plans
  }

  /** The rows the tracker writes for a sale against the stored volume: one for a significant variance, none otherwise. */
  function TrackedRows(id: nat, volume: real, r: SalesRecord, batch: string): (s: seq<Discrepancy>)
    ensures |s| <= 1 && (|s| == 1 <==> TrackerResult(volume, r.volume).Some?)
    ensures forall i :: 0 <= i < |s| ==>
      && s[i].leadId == id && s[i].opportunityVolume == volume && s[i].selloutVolume == r.volume
      && TrackerResult(volume, r.volume) == Some(DiscrepancySummary(s[i].kind, s[i].difference, s[i].percentage))
  {
    var d := Variance(volume, r.volume);
    var pct := Percentage(volume, d);
    if Significant(d, pct) then [Discrepancy(id, r.gstin, r.family, r.sku, volume, r.volume, d, pct, Classify(d), batch)] else []
  }

  /** The tracker's verdict on the opportunity `l` once the sale is added to its volume. */
  function Verdict(l: Lead, r: SalesRecord): Option<DiscrepancySummary> {
    TrackerResult(l.volume + r.volume, r.volume)
  }

  /** The rows the tracker writes for the opportunity `l` once the sale is added to its volume. */
  function VerdictRows(id: nat, l: Lead, r: SalesRecord, batch: string): seq<Discrepancy> {
    TrackedRows(id, l.volume + r.volume, r, batch)
  }

  /** Level 6's messages for the opportunity `l` as level 3 leaves it: only its potential may have changed. */
  function SaleMessages(l: Lead, r: SalesRecord, lk: Lookups): seq<Msg> {
    Level6Messages(l.(potential := PotentialAfterLevel3(l, r, lk.familySoldLastYear)), r, lk)
  }

  /**
   * Levels 4 and 5 (row `id` rewritten) and then level 6 (rows appended,
   * row `id` rewritten again, the DSR looked up in the table as it then
   * stands) give the table, the log and the DSR id that `LateLevels`
   * promises.
   */
  lemma LateLevelsCompose(leads: seq<Lead>, audit: seq<AuditRecord>, available: bool, id: nat, r: SalesRecord,
                          lk: Lookups, batch: string, now: int)
    requires ValidId(leads, id)
    ensures var l := leads[id - 1];
      var l5 := SectorLead(l, r, batch, now);
      && (leads[id - 1 := l5] + Level6Inserted(l5, r, lk, batch, now))[id - 1 := AfterSale(l5, r.volume, batch, now)]
         == (leads + Level6Inserted(l, r, lk, batch, now))[id - 1 := AfterSale(l5, r.volume, batch, now)]
      && Logged(Logged(audit, available, SectorRecords(id, l, r, batch)), available, Level6Records(id, l5, r.volume, batch))
         == Logged(audit, available, SectorRecords(id, l, r, batch) + Level6Records(id, l, r.volume, batch))
      && GetDsrId(leads[id - 1 := l5] + UpSells(l5, r, lk, batch, now), r.dsrName)
         == GetDsrId(leads + UpSells(l, r, lk, batch, now), r.dsrName)
  {
    var l := leads[id - 1];
    var l5 := SectorLead(l, r, batch, now);
    var inserted := Level6Inserted(l, r, lk, batch, now);
    assert Level6Inserted(l5, r, lk, batch, now) == inserted;
    assert leads + [] == leads;
    RewriteAroundAppend(leads, [], inserted, id, l5, AfterSale(l5, r.volume, batch, now));
    Level6RecordsOfFields(id, l5, l, r.volume, batch);
    LoggedTwice(audit, available, SectorRecords(id, l, r, batch), Level6Records(id, l, r.volume, batch));
    var upSells := UpSells(l, r, lk, batch, now);
    assert leads[id - 1 := l5] + upSells == (leads + upSells)[id - 1 := l5];
    GetDsrIdRewrite(leads + upSells, id - 1, l5, r.dsrName);
  }

  /** Level 6 and the tracker report on the opportunity after levels 4 and 5 what they would report on the one before. */
  lemma SectorKeepsSale(id: nat, l: Lead, r: SalesRecord, lk: Lookups, batch: string, now: int)
    ensures var l5 := SectorLead(l, r, batch, now);
      && Level6Messages(l5, r, lk) == Level6Messages(l, r, lk)
      && Verdict(l5, r) == Verdict(l, r)
      && VerdictRows(id, l5, r, batch) == VerdictRows(id, l, r, batch)
  {
    var l5 := SectorLead(l, r, batch, now);
    assert l5.volume == l.volume && l5.stage == l.stage && l5.potential == l.potential;
    Level6MessagesOfFields(l5, l, r, lk);
  }

  /** Level 6 and then the tracker, which judges the volume the sale left on the opportunity `id`. */
  method SaleLevel(db: Database, id: nat, r: SalesRecord, lk: Lookups, batch: string, now: int)
    returns (upSell: bool, msgs: seq<Msg>, discrepancy: Option<DiscrepancySummary>)
    requires ValidId(db.leads, id)
    modifies db`leads, db`audit, db`skus, db`discrepancies
    ensures var l := old(db.leads[id - 1]);
      && db.leads == (old(db.leads) + Level6Inserted(l, r, lk, batch, now))[id - 1 := AfterSale(l, r.volume, batch, now)]
      && db.audit == Logged(old(db.audit), db.auditAvailable, Level6Records(id, l, r.volume, batch))
      && db.skus == SkuAfterSale(old(db.skus), id, r,
           GetDsrId(old(db.leads) + UpSells(l, r, lk, batch, now), r.dsrName))
      && db.discrepancies == old(db.discrepancies) + VerdictRows(id, l, r, batch)
    ensures var l := old(db.leads[id - 1]);
      && upSell == IsTierUpgrade(lk.latestTier, r.tier)
      && msgs == Level6Messages(l, r, lk)
      && discrepancy == Verdict(l, r)
    ensures SkuVolume(db.skus, id, r.sku) == SkuVolume(old(db.skus), id, r.sku) + r.volume
    ensures db.actions == old(db.actions) && db.callPlans == old(db.callPlans)
  {
    upSell, msgs := Level6(db, id, r, lk, batch, now);
    discrepancy := TrackVolumeDiscrepancy(db, id, r, batch);
  }

  /**
   * Levels 4 to 6 and then the tracker on the opportunity `id`: level 6's
   * rows appended, row `id` rewritten with the sale's sector and then the
   * sale, the records of levels 4 to 6 logged, the sale recorded on the SKU
   * rows, and the tracker judging the volume after the sale.
   */
  method LateLevels(db: Database, id: nat, r: SalesRecord, lk: Lookups, batch: string, now: int)
    returns (sectorMsgs: seq<Msg>, upSell: bool, msgs: seq<Msg>, discrepancy: Option<DiscrepancySummary>)
    requires ValidId(db.leads, id)
    modifies db`leads, db`audit, db`skus, db`discrepancies
    ensures var l := old(db.leads[id - 1]);
      && db.leads == (old(db.leads) + Level6Inserted(l, r, lk, batch, now))[id - 1 := AfterSale(SectorLead(l, r, batch, now), r.volume, batch, now)]
      && db.audit == Logged(old(db.audit), db.auditAvailable, SectorRecords(id, l, r, batch) + Level6Records(id, l, r.volume, batch))
      && db.skus == SkuAfterSale(old(db.skus), id, r,
           GetDsrId(old(db.leads) + UpSells(l, r, lk, batch, now), r.dsrName))
      && db.discrepancies == old(db.discrepancies) + VerdictRows(id, l, r, batch)
    ensures var l := old(db.leads[id - 1]);
      && sectorMsgs == SectorMessages(l, r)
      && upSell == IsTierUpgrade(lk.latestTier, r.tier)
      && msgs == Level6Messages(l, r, lk)
      && discrepancy == Verdict(l, r)
    ensures SkuVolume(db.skus, id, r.sku) == SkuVolume(old(db.skus), id, r.sku) + r.volume
    ensures db.actions == old(db.actions) && db.callPlans == old(db.callPlans)
  {
    ghost var leads0 := db.leads;
    ghost var audit0 := db.audit;
    ghost var l := db.leads[id - 1];
    sectorMsgs := SectorLevels(db, id, r, batch, now);
    ghost var l5 := db.leads[id - 1];
    assert l5 == SectorLead(l, r, batch, now);
    ghost var leads5 := db.leads;
    assert leads5 == leads0[id - 1 := l5];
    upSell, msgs, discrepancy := SaleLevel(db, id, r, lk, batch, now);
    SectorKeepsSale(id, l, r, lk, batch, now);
    LateLevelsCompose(leads0, audit0, db.auditAvailable, id, r, lk, batch, now);
  }

  /** The opportunity table after level 1: unchanged when the GSTIN is known, one row longer otherwise. */
  function Level1Leads(leads: seq<Lead>, r: SalesRecord, batch: string, now: int): (s: seq<Lead>)
    ensures FindByGstin(leads, r.gstin, false).Some? ==> s == leads
    ensures FindByGstin(leads, r.gstin, false).None? ==>
      s == leads + [NewLead(r, r.oppType.GetOr("New Customer"), r.originalEnteredDate.GetOr(now), batch, now)]
  {
    if FindByGstin(leads, r.gstin, false).Some? then leads
    else leads + [NewLead(r, r.oppType.GetOr("New Customer"), r.originalEnteredDate.GetOr(now), batch, now)]
  }

  /** The opportunity level 1 settles on: the first with the GSTIN, or the one it creates. */
  function Level1Id(leads: seq<Lead>, r: SalesRecord, batch: string, now: int): (id: nat)
    ensures ValidId(Level1Leads(leads, r, batch, now), id)
    ensures Level1Leads(leads, r, batch, now)[id - 1].gstin == r.gstin
    ensures FindByGstin(leads, r.gstin, false).None? ==> id == |leads| + 1
  {
    match FindByGstin(leads, r.gstin, false)
    case Some(k) => k
    case None => |leads| + 1
  }

  /** The action codes of one record: level 2's, then level 3's. */
  function RecordActions(mismatch: bool, d: FamilyDecision): (a: seq<string>)
    ensures |a| <= 2
  {
    (if mismatch then ["DSR_MISMATCH_WITH_CALL_PLANS_UPDATE"] else []) + Level3Actions(d)
  }

  /** The messages of one record, in the order the levels produce them. */
  function RecordMessages(l: Lead, r: SalesRecord, lk: Lookups, discrepancy: Option<DiscrepancySummary>): seq<Msg> {
    (if l.dsrName != r.dsrName then [CallPlansReassigned] else [])
    + SectorMessages(l, r)
    + SaleMessages(l, r, lk)
    + (if IsTierUpgrade(lk.latestTier, r.tier) then [UpSellCreated] else [])
    + [SkuDetailsUpdated]
    + (if discrepancy.Some? then [DiscrepancyTracked] else [])
  }

  /**
   * The result of a record whose opportunity `id` stood as `l` after level 1:
   * success, the action codes of levels 2 and 3, up-sell and SKU flags, and
   * the tracker's verdict on the volume after level 6.
   */
  predicate Reports(out: Outcome, id: nat, l: Lead, r: SalesRecord, lk: Lookups) {
    && out.status == Succeeded && out.oppId == Some(id) && out.error.None?
    && out.callPlansUpdated == (l.dsrName != r.dsrName)
    && out.actions == RecordActions(l.dsrName != r.dsrName, Decide(l, r.family, lk.familySoldLastYear))
    && out.upSellCreated == IsTierUpgrade(lk.latestTier, r.tier) && out.skuUpdated
    && out.discrepancy == Verdict(l, r)
    && out.messages == RecordMessages(l, r, lk, out.discrepancy)
  }

  /**
   * How the opportunity `l` stands after a sale: same customer, the sale
   * added to its volume, stage by the stage table, potential raised to the
   * new volume when exceeded (after any split), the sale's sector and
   * sub-sector, same type and entered date, integration-managed.
   */
  predicate Settled(t: Lead, l: Lead, r: SalesRecord, lk: Lookups) {
    && t.gstin == l.gstin && t.volume == l.volume + r.volume && t.stage == StageAfterSale(l.stage)
    && t.potential == RaisedPotential(PotentialAfterLevel3(l, r, lk.familySoldLastYear), l.volume + r.volume)
    && t.sector == r.sector && t.subSector == (if l.subSector != r.subSector then SubSectorTarget(r.subSector) else l.subSector)
    && t.oppType == l.oppType && t.enteredDate == l.enteredDate && t.managed
  }

  /** Level 6's messages read only the stage, volume and potential of the opportunity. */
  lemma Level6MessagesOfFields(a: Lead, b: Lead, r: SalesRecord, lk: Lookups)
    requires a.stage == b.stage && a.volume == b.volume && a.potential == b.potential
    ensures Level6Messages(a, r, lk) == Level6Messages(b, r, lk)
  {
  }

  /** Levels 2 to 6 leave the opportunity that stood as `l` settled, through its states `l3` and `l5` after levels 3 and 5. */
  lemma SettledAfterLevels(t: Lead, l5: Lead, l3: Lead, l: Lead, r: SalesRecord, lk: Lookups)
    requires l3.volume == l.volume && l3.stage == l.stage && l3.sector == l.sector && l3.subSector == l.subSector
    requires l3.gstin == l.gstin && l3.oppType == l.oppType && l3.enteredDate == l.enteredDate
    requires l3.potential == PotentialAfterLevel3(l, r, lk.familySoldLastYear)
    requires l5.volume == l3.volume && l5.stage == l3.stage && l5.potential == l3.potential && l5.gstin == l3.gstin
    requires l5.oppType == l3.oppType && l5.enteredDate == l3.enteredDate
    requires l5.sector == r.sector && l5.subSector == (if l3.subSector != r.subSector then SubSectorTarget(r.subSector) else l3.subSector)
    requires t.volume == l5.volume + r.volume && t.stage == StageAfterSale(l5.stage)
    requires t.potential == RaisedPotential(l5.potential, l5.volume + r.volume)
    requires t.sector == l5.sector && t.subSector == l5.subSector && t.gstin == l5.gstin && t.managed
    requires t.oppType == l5.oppType && t.enteredDate == l5.enteredDate
    ensures Settled(t, l, r, lk)
  {
  }

  /** The outcome `Reconcile` assembles from what levels 2 to 6 and the tracker report is the one `Reports` describes. */
  lemma ReportsAssembled(out: Outcome, id: nat, l: Lead, r: SalesRecord, lk: Lookups, mismatch: bool, d: FamilyDecision,
                         sectorMsgs: seq<Msg>, upSell: bool, m6: seq<Msg>, discrepancy: Option<DiscrepancySummary>)
    requires mismatch == (l.dsrName != r.dsrName) && d == Decide(l, r.family, lk.familySoldLastYear)
    requires sectorMsgs == SectorMessages(l, r)
    requires upSell == IsTierUpgrade(lk.latestTier, r.tier)
    requires m6 == SaleMessages(l, r, lk)
    requires discrepancy == Verdict(l, r)
    requires out == Outcome(
      status := Succeeded,
      oppId := Some(id),
      actions := RecordActions(mismatch, d),
      messages := (if mismatch then [CallPlansReassigned] else []) + sectorMsgs + m6
        + (if upSell then [UpSellCreated] else []) + [SkuDetailsUpdated]
        + (if discrepancy.Some? then [DiscrepancyTracked] else []),
      upSellCreated := upSell,
      callPlansUpdated := mismatch,
      discrepancy := discrepancy,
      skuUpdated := true,
      error := None)
    ensures Reports(out, id, l, r, lk)
  {
  }

  /**
   * The opportunity `l` after levels 2 to 6: level 3's split, if any, then
   * the sale's sector and sub-sector, then the sale.
   */
  function ReconciledLead(l: Lead, r: SalesRecord, lk: Lookups, batch: string, now: int): (t: Lead)
    ensures Settled(t, l, r, lk)
    ensures t.dsrId == l.dsrId && t.dsrName == l.dsrName && t.cusName == l.cusName && t.status == l.status
    ensures t.lastUpdated == l.lastUpdated && t.batchId == batch && t.lastIntegrationUpdate == now
  {
    var l3 := Level3Lead(l, r, lk.familySoldLastYear, batch, now);
    var l5 := SectorLead(l3, r, batch, now);
    Level3Keeps(l, r, lk.familySoldLastYear, batch, now);
    SettledAfterLevels(AfterSale(l5, r.volume, batch, now), l5, l3, l, r, lk);
    AfterSale(l5, r.volume, batch, now)
  }

  /** The opportunities one record inserts, in order: level 3's cross-sell or split, then level 6's up-sell and new product. */
  function RecordInserted(l: Lead, r: SalesRecord, lk: Lookups, batch: string, now: int): (s: seq<Lead>)
    ensures |s| <= 3
    ensures forall i :: 0 <= i < |s| ==> s[i].stage == "Order" && s[i].volume == r.volume && s[i].enteredDate == l.enteredDate && s[i].gstin == r.gstin
  {
    Level6InsertedShape(l, r, lk, batch, now);
    Level3Inserted(l, r, lk.familySoldLastYear, batch, now) + Level6Inserted(l, r, lk, batch, now)
  }

  /**
   * The opportunity table after levels 2 to 6 on row `id`: the inserted
   * rows appended, row `id` reconciled, every other row unchanged.
   */
  function RecordLeads(leads: seq<Lead>, id: nat, r: SalesRecord, lk: Lookups, batch: string, now: int): (s: seq<Lead>)
    requires ValidId(leads, id)
    ensures |s| == |leads| + |RecordInserted(leads[id - 1], r, lk, batch, now)|
    ensures ValidId(s, id) && s[id - 1] == ReconciledLead(leads[id - 1], r, lk, batch, now)
    ensures forall j :: 0 <= j < |leads| && j != id - 1 ==> s[j] == leads[j]
    ensures s[|leads|..] == RecordInserted(leads[id - 1], r, lk, batch, now)
  {
    (leads + RecordInserted(leads[id - 1], r, lk, batch, now))[id - 1 := ReconciledLead(leads[id - 1], r, lk, batch, now)]
  }

  /**
   * The audit records of one record, in order: level 3's, then those of
   * levels 4 to 6, which read the opportunity as level 3 left it.
   */
  function RecordAudit(id: nat, l: Lead, r: SalesRecord, lk: Lookups, batch: string, now: int): seq<AuditRecord> {
    var l3 := Level3Lead(l, r, lk.familySoldLastYear, batch, now);
    Level3Records(id, l, r, lk.familySoldLastYear, batch, now) + (SectorRecords(id, l3, r, batch) + Level6Records(id, l3, r.volume, batch))
  }

  /**
   * The DSR id a new SKU row takes: that of the first opportunity carrying
   * the sale's DSR name in the table as level 6 sees it, which holds level
   * 3's and the up-sell's rows.
   */
  function RecordDsrId(leads: seq<Lead>, id: nat, r: SalesRecord, lk: Lookups, batch: string, now: int): int
    requires ValidId(leads, id)
  {
    var l := leads[id - 1];
    GetDsrId(leads + Level3Inserted(l, r, lk.familySoldLastYear, batch, now)
      + UpSells(l, r, lk, batch, now), r.dsrName)
  }

  /** Levels 2 and 3, then levels 4 to 6, give the table `RecordLeads`. */
  lemma RecordLeadsCompose(leads: seq<Lead>, id: nat, r: SalesRecord, lk: Lookups, batch: string, now: int)
    requires ValidId(leads, id)
    ensures var l := leads[id - 1];
      var l3 := Level3Lead(l, r, lk.familySoldLastYear, batch, now);
      (((leads + Level3Inserted(l, r, lk.familySoldLastYear, batch, now))[id - 1 := l3] + Level6Inserted(l3, r, lk, batch, now))
        [id - 1 := AfterSale(SectorLead(l3, r, batch, now), r.volume, batch, now)]
         == RecordLeads(leads, id, r, lk, batch, now))
  {
    var l := leads[id - 1];
    var l3 := Level3Lead(l, r, lk.familySoldLastYear, batch, now);
    var inserted3 := Level3Inserted(l, r, lk.familySoldLastYear, batch, now);
    var inserted6 := Level6Inserted(l, r, lk, batch, now);
    var t := AfterSale(SectorLead(l3, r, batch, now), r.volume, batch, now);
    Level3Keeps(l, r, lk.familySoldLastYear, batch, now);
    assert Level6Inserted(l3, r, lk, batch, now) == inserted6;
    assert ReconciledLead(l, r, lk, batch, now) == t;
    RewriteAroundAppend(leads, inserted3, inserted6, id, l3, t);
    assert leads + inserted3 + inserted6 == leads + RecordInserted(l, r, lk, batch, now);
  }

  /** Levels 2 and 3, then levels 4 to 6, give the log `RecordAudit`. */
  lemma RecordAuditCompose(audit: seq<AuditRecord>, available: bool, id: nat, l: Lead, r: SalesRecord, lk: Lookups, batch: string, now: int)
    ensures var l3 := Level3Lead(l, r, lk.familySoldLastYear, batch, now);
      Logged(Logged(audit, available, Level3Records(id, l, r, lk.familySoldLastYear, batch, now)), available,
        SectorRecords(id, l3, r, batch) + Level6Records(id, l3, r.volume, batch))
      == Logged(audit, available, RecordAudit(id, l, r, lk, batch, now))
  {
    var l3 := Level3Lead(l, r, lk.familySoldLastYear, batch, now);
    var xs := Level3Records(id, l, r, lk.familySoldLastYear, batch, now);
    var ys := SectorRecords(id, l3, r, batch) + Level6Records(id, l3, r.volume, batch);
    LoggedTwice(audit, available, xs, ys);
    assert xs + ys == RecordAudit(id, l, r, lk, batch, now);
  }

  /** Levels 2 and 3, then level 6's up-sell, give the DSR id `RecordDsrId`. */
  lemma RecordDsrIdCompose(leads: seq<Lead>, id: nat, r: SalesRecord, lk: Lookups, batch: string, now: int)
    requires ValidId(leads, id)
    ensures var l := leads[id - 1];
      var l3 := Level3Lead(l, r, lk.familySoldLastYear, batch, now);
      GetDsrId((leads + Level3Inserted(l, r, lk.familySoldLastYear, batch, now))[id - 1 := l3] + UpSells(l3, r, lk, batch, now), r.dsrName)
      == RecordDsrId(leads, id, r, lk, batch, now)
  {
    var l := leads[id - 1];
    var l3 := Level3Lead(l, r, lk.familySoldLastYear, batch, now);
    var inserted3 := Level3Inserted(l, r, lk.familySoldLastYear, batch, now);
    var upSells := UpSells(l, r, lk, batch, now);
    Level3Keeps(l, r, lk.familySoldLastYear, batch, now);
    assert UpSells(l3, r, lk, batch, now) == upSells;
    assert (leads + inserted3)[id - 1 := l3] + upSells == (leads + inserted3 + upSells)[id - 1 := l3];
    GetDsrIdRewrite(leads + inserted3 + upSells, id - 1, l3, r.dsrName);
  }

  /**
   * Levels 4 to 6 and the tracker report on the opportunity as level 3 left
   * it what they would report on the original: level 3 changes neither the
   * volume, the stage nor the sectors, and its new potential is the one
   * `SaleMessages` reads.
   */
  lemma Level3KeepsReports(id: nat, l: Lead, r: SalesRecord, lk: Lookups, batch: string, now: int)
    ensures var l3 := Level3Lead(l, r, lk.familySoldLastYear, batch, now);
      && SectorMessages(l3, r) == SectorMessages(l, r)
      && Level6Messages(l3, r, lk) == SaleMessages(l, r, lk)
      && Verdict(l3, r) == Verdict(l, r)
      && VerdictRows(id, l3, r, batch) == VerdictRows(id, l, r, batch)
  {
    var l3 := Level3Lead(l, r, lk.familySoldLastYear, batch, now);
    Level3Keeps(l, r, lk.familySoldLastYear, batch, now);
    Level6MessagesOfFields(l3, l.(potential := PotentialAfterLevel3(l, r, lk.familySoldLastYear)), r, lk);
  }

  /**
   * Level 3 and then levels 4 to 6, on the opportunity as level 3 left it,
   * give the tables `RecordLeads` and `RecordAudit` describe and the DSR id
   * `RecordDsrId` describes.
   */
  lemma Levels3To6Compose(leads: seq<Lead>, audit: seq<AuditRecord>, available: bool,
                          id: nat, r: SalesRecord, lk: Lookups, batch: string, now: int)
    requires ValidId(leads, id)
    ensures var l := leads[id - 1];
      var l3 := Level3Lead(l, r, lk.familySoldLastYear, batch, now);
      var leads3 := (leads + Level3Inserted(l, r, lk.familySoldLastYear, batch, now))[id - 1 := l3];
      && (leads3 + Level6Inserted(l3, r, lk, batch, now))[id - 1 := AfterSale(SectorLead(l3, r, batch, now), r.volume, batch, now)]
         == RecordLeads(leads, id, r, lk, batch, now)
      && Logged(Logged(audit, available, Level3Records(id, l, r, lk.familySoldLastYear, batch, now)), available,
                SectorRecords(id, l3, r, batch) + Level6Records(id, l3, r.volume, batch))
         == Logged(audit, available, RecordAudit(id, l, r, lk, batch, now))
      && GetDsrId(leads3 + UpSells(l3, r, lk, batch, now), r.dsrName) == RecordDsrId(leads, id, r, lk, batch, now)
  {
    var l := leads[id - 1];
    RecordLeadsCompose(leads, id, r, lk, batch, now);
    RecordAuditCompose(audit, available, id, l, r, lk, batch, now);
    RecordDsrIdCompose(leads, id, r, lk, batch, now);
  }

  /**
   * Levels 3 to 6 and the tracker on the opportunity `id`: the rows of
   * levels 3 and 6 appended, row `id` reconciled, the records of levels 3
   * to 6 logged, the sale recorded on the SKU rows, and the tracker judging
   * the volume after the sale.
   */
  method Levels3To6(db: Database, id: nat, r: SalesRecord, lk: Lookups, batch: string, now: int)
    returns (d: FamilyDecision, sectorMsgs: seq<Msg>, upSell: bool, m6: seq<Msg>, discrepancy: Option<DiscrepancySummary>)
    requires ValidId(db.leads, id)
    modifies db`leads, db`audit, db`skus, db`discrepancies
    ensures db.leads == RecordLeads(old(db.leads), id, r, lk, batch, now)
    ensures db.audit == Logged(old(db.audit), db.auditAvailable, RecordAudit(id, old(db.leads[id - 1]), r, lk, batch, now))
    ensures db.skus == SkuAfterSale(old(db.skus), id, r, RecordDsrId(old(db.leads), id, r, lk, batch, now))
    ensures db.discrepancies == old(db.discrepancies) + VerdictRows(id, old(db.leads[id - 1]), r, batch)
    ensures db.actions == old(db.actions) && db.callPlans == old(db.callPlans)
    ensures var l := old(db.leads[id - 1]);
      && d == Decide(l, r.family, lk.familySoldLastYear)
      && sectorMsgs == SectorMessages(l, r) && upSell == IsTierUpgrade(lk.latestTier, r.tier)
      && m6 == SaleMessages(l, r, lk) && discrepancy == Verdict(l, r)
  {
    d := Level3(db, id, r, batch, now, lk.familySoldLastYear);
    sectorMsgs, upSell, m6, discrepancy := LateLevels(db, id, r, lk, batch, now);
    Levels3To6Compose(old(db.leads), old(db.audit), db.auditAvailable, id, r, lk, batch, now);
    Level3KeepsReports(id, old(db.leads[id - 1]), r, lk, batch, now);
  }

  /** Levels 2 to 6 and the tracker on the opportunity `id`, with what each reports. */
  method RunLevels(db: Database, id: nat, r: SalesRecord, lk: Lookups, batch: string, now: int)
    returns (mismatch: bool, d: FamilyDecision, sectorMsgs: seq<Msg>, upSell: bool, m6: seq<Msg>, discrepancy: Option<DiscrepancySummary>)
    requires ValidId(db.leads, id)
    modifies db`leads, db`audit, db`skus, db`actions, db`callPlans, db`discrepancies
    ensures var l := old(db.leads[id - 1]);
      && mismatch == (l.dsrName != r.dsrName) && d == Decide(l, r.family, lk.familySoldLastYear)
      && sectorMsgs == SectorMessages(l, r) && upSell == IsTierUpgrade(lk.latestTier, r.tier)
      && m6 == SaleMessages(l, r, lk) && discrepancy == Verdict(l, r)
    ensures db.leads == RecordLeads(old(db.leads), id, r, lk, batch, now)
    ensures db.audit == Logged(old(db.audit), db.auditAvailable, RecordAudit(id, old(db.leads[id - 1]), r, lk, batch, now))
    ensures db.skus == SkuAfterSale(old(db.skus), id, r, RecordDsrId(old(db.leads), id, r, lk, batch, now))
    ensures db.actions == old(db.actions) + QueuedActions(old(db.leads[id - 1]), r)
    ensures db.callPlans == PlansAfter(old(db.callPlans), old(db.leads[id - 1]), r, now)
    ensures db.discrepancies == old(db.discrepancies) + VerdictRows(id, old(db.leads[id - 1]), r, batch)
  {
    mismatch := Level2(db, id, r, now);
    d, sectorMsgs, upSell, m6, discrepancy := Levels3To6(db, id, r, lk, batch, now);
  }

  /** Levels 2 to 6 and the tracker on the opportunity `id` that level 1 settled on. */
  method Reconcile(db: Database, id: nat, r: SalesRecord, lk: Lookups, batch: string, now: int) returns (out: Outcome)
    requires ValidId(db.leads, id)
    modifies db`leads, db`audit, db`skus, db`actions, db`callPlans, db`discrepancies
    ensures ValidId(db.leads, id)
    ensures Reports(out, id, old(db.leads[id - 1]), r, lk)
    ensures Settled(db.leads[id - 1], old(db.leads[id - 1]), r, lk)
    ensures SkuVolume(db.skus, id, r.sku) == SkuVolume(old(db.skus), id, r.sku) + r.volume
    ensures var l := old(db.leads[id - 1]);
      && db.leads == RecordLeads(old(db.leads), id, r, lk, batch, now)
      && db.audit == Logged(old(db.audit), db.auditAvailable, RecordAudit(id, l, r, lk, batch, now))
      && db.skus == SkuAfterSale(old(db.skus), id, r, RecordDsrId(old(db.leads), id, r, lk, batch, now))
      && db.actions == old(db.actions) + QueuedActions(l, r)
      && db.callPlans == PlansAfter(old(db.callPlans), l, r, now)
      && db.discrepancies == old(db.discrepancies) + VerdictRows(id, l, r, batch)
  {
    ghost var l := db.leads[id - 1];
    var mismatch, d, sectorMsgs, upSell, m6, discrepancy := RunLevels(db, id, r, lk, batch, now);
    SkuAfterSaleTotals(old(db.skus), id, r, RecordDsrId(old(db.leads), id, r, lk, batch, now), id, r.sku);
    out := Outcome(
      status := Succeeded,
      oppId := Some(id),
      actions := RecordActions(mismatch, d),
      messages := (if mismatch then [CallPlansReassigned] else []) + sectorMsgs + m6
        + (if upSell then [UpSellCreated] else []) + [SkuDetailsUpdated]
        + (if discrepancy.Some? then [DiscrepancyTracked] else []),
      upSellCreated := upSell,
      callPlansUpdated := mismatch,
      discrepancy := discrepancy,
      skuUpdated := true,
      error := None);
    ReportsAssembled(out, id, l, r, lk, mismatch, d, sectorMsgs, upSell, m6, discrepancy);
  }

  /**
   * Runs one sales record through the six levels and the tracker. A
   * malformed GSTIN fails before anything is read or written; otherwise the
   * record always succeeds, and the opportunity level 1 settles on ends with
   * the sale added to its volume, its stage moved by the stage table, the
   * sale's sector and sub-sector, and the sale added to its SKU total.
   */
  method ValidateSalesRecord(db: Database, r: SalesRecord, lk: Lookups, batch: string, now: int) returns (out: Outcome)
    modifies db`leads, db`audit, db`skus, db`actions, db`callPlans, db`discrepancies
    ensures !IsValidGstin(r.gstin) ==>
      && out == InvalidGstinOutcome(r.gstin)
      && db.leads == old(db.leads) && db.audit == old(db.audit) && db.skus == old(db.skus)
      && db.actions == old(db.actions) && db.callPlans == old(db.callPlans) && db.discrepancies == old(db.discrepancies)
    ensures IsValidGstin(r.gstin) ==>
      var id := Level1Id(old(db.leads), r, batch, now);
      var l := Level1Leads(old(db.leads), r, batch, now)[id - 1];
      && ValidId(db.leads, id)
      && Reports(out, id, l, r, lk)
      && Settled(db.leads[id - 1], l, r, lk)
      && SkuVolume(db.skus, id, r.sku) == SkuVolume(old(db.skus), id, r.sku) + r.volume
      && db.leads == RecordLeads(Level1Leads(old(db.leads), r, batch, now), id, r, lk, batch, now)
      && db.audit == Logged(old(db.audit), db.auditAvailable, RecordAudit(id, l, r, lk, batch, now))
      && db.skus == SkuAfterSale(old(db.skus), id, r, RecordDsrId(Level1Leads(old(db.leads), r, batch, now), id, r, lk, batch, now))
      && db.actions == old(db.actions) + QueuedActions(l, r)
      && db.callPlans == PlansAfter(old(db.callPlans), l, r, now)
      && db.discrepancies == old(db.discrepancies) + VerdictRows(id, l, r, batch)
  {
    var found := Level1(db, r, batch, now);
    if found.None? {
      return InvalidGstinOutcome(r.gstin);
    }
    ghost var leads1 := db.leads;
    assert leads1 == Level1Leads(old(db.leads), r, batch, now) && found.value == Level1Id(old(db.leads), r, batch, now);
    out := Reconcile(db, found.value, r, lk, batch, now);
  }

  // ----- Properties of a whole record -----

  /**
   * A new customer: the row is created with the sale volume and level 6 adds
   * the sale again, so the opportunity ends at twice the sale, at stage
   * 'Order', typed 'New Customer' unless the record says otherwise and dated
   * by the record's original date, else now.
   */
  lemma NewCustomerVolumeDoubles(leads: seq<Lead>, r: SalesRecord, lk: Lookups, batch: string, now: int, t: Lead)
    requires FindByGstin(leads, r.gstin, false).None?
    requires Settled(t, Level1Leads(leads, r, batch, now)[Level1Id(leads, r, batch, now) - 1], r, lk)
    ensures Level1Id(leads, r, batch, now) == |leads| + 1
    ensures t.volume == r.volume + r.volume && t.stage == "Order" && t.gstin == r.gstin
    ensures t.oppType == r.oppType.GetOr("New Customer") && t.enteredDate == r.originalEnteredDate.GetOr(now)
  {
    var l := NewLead(r, r.oppType.GetOr("New Customer"), r.originalEnteredDate.GetOr(now), batch, now);
    assert Level1Leads(leads, r, batch, now)[|leads|] == l;
  }

  /** ... and the tracker then reports a positive sale as an under-sale of the whole sale, at minus 50 percent. */
  lemma NewCustomerTrackedAsUnderSale(leads: seq<Lead>, r: SalesRecord, batch: string, now: int)
    requires FindByGstin(leads, r.gstin, false).None? && r.volume > 0.0
    ensures var l := Level1Leads(leads, r, batch, now)[Level1Id(leads, r, batch, now) - 1];
      Verdict(l, r) == Some(DiscrepancySummary(UnderSale, -r.volume, -50.0))
  {
    var l := NewLead(r, r.oppType.GetOr("New Customer"), r.originalEnteredDate.GetOr(now), batch, now);
    assert Level1Leads(leads, r, batch, now)[|leads|] == l;
    NewCustomerAlwaysUnderSale(r.volume);
  }

  /** A new customer whose family is not empty needs no level-2 or level-3 action: its DSR and family are the sale's. */
  lemma NewCustomerNeedsNoAction(leads: seq<Lead>, r: SalesRecord, lk: Lookups, batch: string, now: int)
    requires FindByGstin(leads, r.gstin, false).None? && !Empty(r.family)
    ensures var l := Level1Leads(leads, r, batch, now)[Level1Id(leads, r, batch, now) - 1];
      RecordActions(l.dsrName != r.dsrName, Decide(l, r.family, lk.familySoldLastYear)) == []
  {
    var l := NewLead(r, r.oppType.GetOr("New Customer"), r.originalEnteredDate.GetOr(now), batch, now);
    assert Level1Leads(leads, r, batch, now)[|leads|] == l;
    assert Carries(l, r.family) && SlotCount(l) == 1;
  }

  /** A known GSTIN: level 1 leaves the table alone and settles on the first opportunity with it. */
  lemma Level1Existing(leads: seq<Lead>, r: SalesRecord, batch: string, now: int)
    requires FindByGstin(leads, r.gstin, false).Some?
    ensures Level1Leads(leads, r, batch, now) == leads && Level1Id(leads, r, batch, now) == FindByGstin(leads, r.gstin, false).value
  {
  }

  /** The stage table leaves every stage but SPANCOP, Lost and Sleep alone, Prospect, Suspect and Qualified included. */
  lemma StageTable()
    ensures StageAfterSale("SPANCOP") == "Order" && StageAfterSale("Lost") == "Order" && StageAfterSale("Sleep") == "Order"
    ensures StageAfterSale("Prospect") == "Prospect" && StageAfterSale("Suspect") == "Suspect"
    ensures StageAfterSale("Qualified") == "Qualified" && StageAfterSale("Order") == "Order"
    ensures StageAfterSale("Retention") == "Retention"
  {
  }
}
