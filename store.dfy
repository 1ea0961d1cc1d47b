/**
 * The tables the reconciliation logic reads and writes, held in memory.
 *
 * Every table of the database becomes one sequence field of `Database`. Row ids
 * are auto-increment ids: the row at index `i` has id `i + 1`, and no row is
 * ever removed from `leads` (deletion is a soft delete that sets `status`).
 */
module Store {

  datatype Option<T> = None | Some(value: T) {
    function GetOr(default: T): T {
      match this
      case Some(v) => v
      case None => default
    }
  }

  datatype Result<T> = Success(value: T) | Failure(error: string)

  /** A value as the audit log stores it: the text or the number written to a column. */
  datatype Val = Text(s: string) | Num(r: real)

  /**
   * One row of the opportunity table. `product1..3` are the three
   * product-family slots, `stage` is `lead_status`, `volume` is
   * `volume_converted`, `potential` is `annual_potential`, `status` is the
   * soft-delete flag ('A' active, 'D' deleted).
   */
  datatype Lead = Lead(
    cusName: string,
    gstin: string,
    dsrId: int,
    dsrName: string,
    sector: string,
    subSector: string,
    product1: string,
    product2: string,
    product3: string,
    stage: string,
    volume: real,
    potential: real,
    oppType: string,
    source: string,
    managed: bool,
    batchId: string,
    status: string,
    enteredDate: int,
    lastUpdated: int,
    lastIntegrationUpdate: int)

  /** The columns of the opportunity table that this model represents. */
  datatype Column =
    | CusName | Gstin | DsrName | Sector | SubSector
    | Product1 | Product2 | Product3 | LeadStatus | Volume | Potential | Status

  function ColumnName(c: Column): string {
    match c
    case CusName => "cus_name"
    case Gstin => "registration_no"
    case DsrName => "dsr_name"
    case Sector => "sector"
    case SubSector => "sub_sector"
    case Product1 => "product_name"
    case Product2 => "product_name_2"
    case Product3 => "product_name_3"
    case LeadStatus => "lead_status"
    case Volume => "volume_converted"
    case Potential => "annual_potential"
    case Status => "status"
  }

  /** The column a field name designates, if it designates one. */
  function ColumnNamed(name: string): (c: Option<Column>)
    ensures c.Some? ==> ColumnName(c.value) == name
  {
    if name == "cus_name" then Some(CusName)
    else if name == "registration_no" then Some(Gstin)
    else if name == "dsr_name" then Some(DsrName)
    else if name == "sector" then Some(Sector)
    else if name == "sub_sector" then Some(SubSector)
    else if name == "product_name" then Some(Product1)
    else if name == "product_name_2" then Some(Product2)
    else if name == "product_name_3" then Some(Product3)
    else if name == "lead_status" then Some(LeadStatus)
    else if name == "volume_converted" then Some(Volume)
    else if name == "annual_potential" then Some(Potential)
    else if name == "status" then Some(Status)
    else None
  }

  /** Every column is found again under its own name. */
  lemma ColumnNameRoundTrip(c: Column)
    ensures ColumnNamed(ColumnName(c)) == Some(c)
  {
  }

  predicate IsNumeric(c: Column) {
    c == Volume || c == Potential
  }

  /** The value a column holds, as the audit log would record it. */
  function Get(l: Lead, c: Column): (v: Val)
    ensures v.Num? <==> IsNumeric(c)
  {
    match c
    case CusName => Text(l.cusName)
    case Gstin => Text(l.gstin)
    case DsrName => Text(l.dsrName)
    case Sector => Text(l.sector)
    case SubSector => Text(l.subSector)
    case Product1 => Text(l.product1)
    case Product2 => Text(l.product2)
    case Product3 => Text(l.product3)
    case LeadStatus => Text(l.stage)
    case Volume => Num(l.volume)
    case Potential => Num(l.potential)
    case Status => Text(l.status)
  }

  /** The fields of a lead that are not columns of `Column`: no column write changes them. */
  function Meta(l: Lead): (int, string, string, bool, string, int, int, int) {
    (l.dsrId, l.oppType, l.source, l.managed, l.batchId, l.enteredDate, l.lastUpdated, l.lastIntegrationUpdate)
  }

  /**
   * Writes `v` into column `c`; a value of the wrong kind for the column
   * (text into a numeric column or the reverse) is refused.
   */
  function Set(l: Lead, c: Column, v: Val): (r: Option<Lead>)
    ensures r.Some? <==> (v.Num? <==> IsNumeric(c))
    ensures r.Some? ==> Get(r.value, c) == v
    ensures r.Some? ==> forall d: Column :: d != c ==> Get(r.value, d) == Get(l, d)
    ensures r.Some? ==> Meta(r.value) == Meta(l)
  {
    match (c, v)
    case (CusName, Text(s)) => Some(l.(cusName := s))
    case (Gstin, Text(s)) => Some(l.(gstin := s))
    case (DsrName, Text(s)) => Some(l.(dsrName := s))
    case (Sector, Text(s)) => Some(l.(sector := s))
    case (SubSector, Text(s)) => Some(l.(subSector := s))
    case (Product1, Text(s)) => Some(l.(product1 := s))
    case (Product2, Text(s)) => Some(l.(product2 := s))
    case (Product3, Text(s)) => Some(l.(product3 := s))
    case (LeadStatus, Text(s)) => Some(l.(stage := s))
    case (Status, Text(s)) => Some(l.(status := s))
    case (Volume, Num(x)) => Some(l.(volume := x))
    case (Potential, Num(x)) => Some(l.(potential := x))
    case (_, _) => None
  }

  /** One row of `isteer_opportunity_products`: the volume of one SKU on one lead. */
  datatype SkuRow = SkuRow(leadId: nat, sku: string, volume: real, pack: string, dsrId: int, status: string, addedBy: string)

  datatype AuditStatus = Active | Reverted

  /** One row of `integration_audit_log`. */
  datatype AuditRecord = AuditRecord(
    leadId: nat,
    field: string,
    oldValue: Val,
    newValue: Val,
    oldValueDate: Option<int>,
    batch: string,
    actor: string,
    status: AuditStatus)

  /** One row of `integration_backup`: a full snapshot of a lead and its expiry time. */
  datatype Backup = Backup(leadId: nat, snapshot: Lead, batch: string, expiresAt: int)

  /** The resolution stored on a queued action (the JSON-encoded `resolution` column). */
  datatype Resolution = Unresolved | Resolved(action: Option<string>, dsrName: Option<string>)

  /** One row of `dsm_action_queue`. */
  datatype Action = Action(
    gstin: string,
    level: int,
    mismatchType: string,
    salesDsr: string,
    opportunityDsr: string,
    required: string,
    priority: string,
    status: string,
    resolvedAt: Option<int>,
    resolution: Resolution)

  /** One row of `isteer_call_plan`; `dsrStatus` is "" where the column is NULL. */
  datatype CallPlan = CallPlan(
    cmkey: string,
    eventUser: string,
    activeStatus: string,
    dsrStatus: string,
    remarks: string,
    lastModifiedBy: string,
    lastModifiedOn: int)

  datatype DiscrepancyType = OverSale | UnderSale | Match

  /** One row of `volume_discrepancy_tracking`. */
  datatype Discrepancy = Discrepancy(
    leadId: nat,
    gstin: string,
    family: string,
    sku: string,
    opportunityVolume: real,
    selloutVolume: real,
    difference: real,
    percentage: real,
    kind: DiscrepancyType,
    batch: string)

  /** One row of the read-only sales history `isteer_sales_upload_master`. */
  datatype MasterRow = MasterRow(gstin: string, sku: string, family: string, tier: string, year: int, createdAt: int)

  /**
   * The shared database. `auditAvailable` and `backupAvailable` say whether
   * the audit and backup tables accept writes: when they do not, the logger
   * swallows the failure, as it does for any database error.
   */
  class Database {
    var leads: seq<Lead>
    var skus: seq<SkuRow>
    var audit: seq<AuditRecord>
    var backups: seq<Backup>
    var actions: seq<Action>
    var callPlans: seq<CallPlan>
    var discrepancies: seq<Discrepancy>
    var auditAvailable: bool
    var backupAvailable: bool

    constructor ()
      ensures leads == [] && skus == [] && audit == [] && backups == []
      ensures actions == [] && callPlans == [] && discrepancies == []
      ensures auditAvailable && backupAvailable
    {
      leads, skus, audit, backups := [], [], [], [];
      actions, callPlans, discrepancies := [], [], [];
      auditAvailable, backupAvailable := true, true;
    }
  }

  /** The id a lead gets when it is appended to a table of `n` rows. */
  function NextId(n: nat): nat { n + 1 }

  predicate ValidId(leads: seq<Lead>, id: nat) {
    1 <= id <= |leads|
  }

  /**
   * The first row (lowest id) whose GSTIN is `g`; with `activeOnly`, only rows
   * with status 'A' are considered. This is the row a `LIMIT 1` lookup returns.
   */
  function FindByGstin(leads: seq<Lead>, g: string, activeOnly: bool): (r: Option<nat>)
    ensures r.Some? ==> ValidId(leads, r.value)
    ensures r.Some? ==> leads[r.value - 1].gstin == g && (activeOnly ==> leads[r.value - 1].status == "A")
    ensures r.Some? ==> forall j :: 0 <= j < r.value - 1 ==>
      !(leads[j].gstin == g && (activeOnly ==> leads[j].status == "A"))
    ensures r.None? ==> forall j :: 0 <= j < |leads| ==>
      !(leads[j].gstin == g && (activeOnly ==> leads[j].status == "A"))
  {
    if leads == [] then None
    else if leads[0].gstin == g && (activeOnly ==> leads[0].status == "A") then Some(1)
    else
      match FindByGstin(leads[1..], g, activeOnly)
      case None => None
      case Some(k) => Some(k + 1)
  }

  /** Replacing row `id` after appending rows: the table is as long as both, and row `id` is the new one. */
  lemma UpdateAfterAppend(leads: seq<Lead>, added: seq<Lead>, id: nat, x: Lead)
    requires ValidId(leads, id)
    ensures |(leads + added)[id - 1 := x]| == |leads| + |added| && (leads + added)[id - 1 := x][id - 1] == x
  {
  }

  /**
   * Rewriting row `id`, appending rows and rewriting it again is appending
   * all the rows and rewriting it once, to the last value.
   */
  lemma RewriteAroundAppend(leads: seq<Lead>, a: seq<Lead>, b: seq<Lead>, id: nat, y: Lead, z: Lead)
    requires ValidId(leads, id)
    ensures ((leads + a)[id - 1 := y] + b)[id - 1 := z] == (leads + a + b)[id - 1 := z]
  {
  }

  /** Appending a row leaves the first match by GSTIN where it was, if there was one. */
  lemma {:induction false} FindByGstinAppend(leads: seq<Lead>, l: Lead, g: string, activeOnly: bool)
    requires FindByGstin(leads, g, activeOnly).Some?
    ensures FindByGstin(leads + [l], g, activeOnly) == FindByGstin(leads, g, activeOnly)
  {
    if leads[0].gstin == g && (activeOnly ==> leads[0].status == "A") {
    } else {
      assert (leads + [l])[1..] == leads[1..] + [l];
      FindByGstinAppend(leads[1..], l, g, activeOnly);
    }
  }

  /** PHP's `empty()` on a string: the empty string and "0" are empty. */
  predicate Empty(s: string) {
    s == "" || s == "0"
  }
}
