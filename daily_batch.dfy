/**
 * The daily batch job: a CSV file whose header names the columns is parsed
 * into records keyed by those names, incomplete lines are skipped, and the
 * records are run through the enhanced engine in chunks of 50, with
 * counters of what happened.
 *
 * The reading of the file, the log file, the per-chunk transaction and the
 * batch statistics table are not part of this model; the numeric value of
 * the `volume` text and the sales-history lookups of a record are given as
 * functions.
 */
module DailyBatch {
  import opened Store
  import opened Gstin
  import opened EngineCommon
  import EnhancedEngine

  /** A parsed line: each header name bound to the cell under it. */
  type CsvRecord = map<string, string>

  // ----- Parsing -----

  /** The columns the header must name. */
  const ExpectedColumns: seq<string> := [
    "registration_no", "customer_name", "dsr_name", "product_family_name",
    "sku_code", "volume", "sector", "sub_sector", "tire_type"]

  /** The expected columns the header lacks, in their expected order. */
  function MissingColumns(header: seq<string>): (m: seq<string>)
    ensures forall c :: c in m <==> c in ExpectedColumns && c !in header
  {
    Missing(ExpectedColumns, header)
  }

  function Missing(cols: seq<string>, header: seq<string>): (m: seq<string>)
    ensures forall c :: c in m <==> c in cols && c !in header
    ensures |m| <= |cols|
  {
    if cols == [] then []
    else (if cols[0] in header then [] else [cols[0]]) + Missing(cols[1..], header)
  }

  /** The names joined with ", ". */
  function Join(names: seq<string>): string {
    if names == [] then ""
    else if |names| == 1 then names[0]
    else names[0] + ", " + Join(names[1..])
  }

  /**
   * Binds each header name to the cell at the same position; when a name
   * repeats, the later cell wins.
   */
  function Combine(header: seq<string>, data: seq<string>): (rec: CsvRecord)
    requires |header| == |data|
    ensures forall c :: c in rec <==> c in header
  {
    if header == [] then map[]
    else Combine(header[..|header| - 1], data[..|data| - 1])[header[|header| - 1] := data[|data| - 1]]
  }

  /** The value of a name is the cell under its last occurrence in the header. */
  lemma {:induction false} CombineValue(header: seq<string>, data: seq<string>, i: nat)
    requires |header| == |data| && i < |header|
    requires forall j :: i < j < |header| ==> header[j] != header[i]
    ensures header[i] in Combine(header, data) && Combine(header, data)[header[i]] == data[i]
  {
    var n := |header|;
    if i < n - 1 {
      CombineValue(header[..n - 1], data[..n - 1], i);
    }
  }

  /**
   * The record a data line contributes: none when its cell count differs
   * from the header's, or when its `registration_no` or `customer_name` is
   * empty in PHP's sense.
   */
  function ParseLine(header: seq<string>, data: seq<string>): (recs: seq<CsvRecord>)
    ensures |recs| <= 1
    ensures |recs| == 1 ==> |data| == |header| && recs[0] == Combine(header, data)
    ensures |recs| == 1 ==> Kept(recs[0])
  {
    if |data| != |header| then []
    else
      var rec := Combine(header, data);
      if Kept(rec) then [rec] else []
  }

  /** A record names its customer: both its GSTIN and its name are present and non-empty. */
  predicate Kept(rec: CsvRecord) {
    && "registration_no" in rec && !Empty(rec["registration_no"])
    && "customer_name" in rec && !Empty(rec["customer_name"])
  }

  /** The records of the data lines, in file order. */
  function ParsedRecords(header: seq<string>, rows: seq<seq<string>>): (recs: seq<CsvRecord>)
    ensures |recs| <= |rows|
    ensures forall k :: 0 <= k < |recs| ==> Kept(recs[k])
  {
    if rows == [] then []
    else ParsedRecords(header, rows[..|rows| - 1]) + ParseLine(header, rows[|rows| - 1])
  }

  lemma ParsedRecordsStep(header: seq<string>, rows: seq<seq<string>>, k: nat)
    requires k < |rows|
    ensures ParsedRecords(header, rows[..k + 1]) == ParsedRecords(header, rows[..k]) + ParseLine(header, rows[k])
  {
    assert rows[..k + 1][..k] == rows[..k];
  }

  /** Parses one data line, combining it only when its cell count matches the header's. */
  method ParseDataLine(header: seq<string>, data: seq<string>) returns (recs: seq<CsvRecord>)
    ensures recs == ParseLine(header, data)
  {
    recs := [];
    if |data| == |header| {
      var rec := Combine(header, data);
      if Kept(rec) {
        recs := [rec];
      }
    }
  }

  /** A CSV file: its header line, absent when the file is empty, and its data lines. */
  datatype CsvFile = CsvFile(header: Option<seq<string>>, rows: seq<seq<string>>)

  /**
   * Parses the file: a header missing an expected column is an error naming
   * the missing columns; otherwise the kept records, in file order. An empty
   * file has no header line and no data lines, and PHP's set difference
   * against a missing header yields no columns, so it parses to no records.
   */
  method ParseCsvFile(file: CsvFile) returns (r: Result<seq<CsvRecord>>)
    ensures file.header.None? ==> r == Success([])
    ensures file.header.Some? && MissingColumns(file.header.value) != [] ==>
      r == Failure("Missing required columns in CSV: " + Join(MissingColumns(file.header.value)))
    ensures file.header.Some? && MissingColumns(file.header.value) == [] ==>
      r == Success(ParsedRecords(file.header.value, file.rows))
  {
    if file.header.None? {
      return Success([]);
    }
    var header := file.header.value;
    var missing := MissingColumns(header);
    if missing != [] {
      return Failure("Missing required columns in CSV: " + Join(missing));
    }
    var recs: seq<CsvRecord> := [];
    var k := 0;
    while k < |file.rows|
      invariant 0 <= k <= |file.rows|
      invariant recs == ParsedRecords(header, file.rows[..k])
    {
      var more := ParseDataLine(header, file.rows[k]);
      ParsedRecordsStep(header, file.rows, k);
      recs := recs + more;
      k := k + 1;
    }
    assert file.rows[..k] == file.rows;
    r := Success(recs);
  }

  // ----- Chunks -----

  const BatchSize: nat := 50

  /** The records cut into consecutive chunks of `size`, the last one possibly shorter. */
  function Chunks(recs: seq<CsvRecord>, size: nat): (cs: seq<seq<CsvRecord>>)
    requires size > 0
    ensures forall k :: 0 <= k < |cs| ==> 0 < |cs[k]| <= size
    ensures forall k :: 0 <= k < |cs| - 1 ==> |cs[k]| == size
    decreases |recs|
  {
    if recs == [] then []
    else if |recs| <= size then [recs]
    else [recs[..size]] + Chunks(recs[size..], size)
  }

  /** The chunks laid end to end. */
  function Flatten(cs: seq<seq<CsvRecord>>): seq<CsvRecord> {
    if cs == [] then [] else cs[0] + Flatten(cs[1..])
  }

  /** Cutting into chunks loses, adds and reorders nothing. */
  lemma {:induction false} ChunksFlatten(recs: seq<CsvRecord>, size: nat)
    requires size > 0
    ensures Flatten(Chunks(recs, size)) == recs
    decreases |recs|
  {
    if |recs| > size {
      var cs := Chunks(recs, size);
      assert cs[1..] == Chunks(recs[size..], size);
      ChunksFlatten(recs[size..], size);
      assert recs[..size] + recs[size..] == recs;
    }
  }

  lemma {:induction false} FlattenSnoc(cs: seq<seq<CsvRecord>>, b: nat)
    requires b < |cs|
    ensures Flatten(cs[..b + 1]) == Flatten(cs[..b]) + cs[b]
    decreases b
  {
    if b > 0 {
      assert cs[..b + 1][1..] == cs[1..][..b];
      assert cs[..b][1..] == cs[1..][..b - 1];
      FlattenSnoc(cs[1..], b - 1);
    } else {
      assert cs[..1][1..] == [];
    }
  }

  // ----- Processing -----

  /** The sales record the enhanced engine sees for a parsed record; `volumeOf` is PHP's `floatval`. */
  function ToSalesRecord(rec: CsvRecord, volumeOf: string -> real): (r: SalesRecord)
    ensures r.gstin == Field(rec, "registration_no") && r.volume == volumeOf(Field(rec, "volume"))
    ensures r.tier.Some? <==> "tire_type" in rec
    ensures r.oppType.Some? <==> "opportunity_type" in rec
  {
    SalesRecord(
      gstin := Field(rec, "registration_no"),
      customerName := Field(rec, "customer_name"),
      dsrName := Field(rec, "dsr_name"),
      family := Field(rec, "product_family_name"),
      sku := Field(rec, "sku_code"),
      volume := volumeOf(Field(rec, "volume")),
      sector := Field(rec, "sector"),
      subSector := Field(rec, "sub_sector"),
      tier := if "tire_type" in rec then Some(rec["tire_type"]) else None,
      oppType := if "opportunity_type" in rec then Some(rec["opportunity_type"]) else None,
      originalEnteredDate := None)
  }

  /** A column of a record, or "" when the record lacks it. */
  function Field(rec: CsvRecord, f: string): string {
    if f in rec then rec[f] else ""
  }

  /** Whether the engine accepts a record: its GSTIN is well formed. */
  predicate Accepted(rec: CsvRecord) {
    IsValidGstin(Field(rec, "registration_no"))
  }

  /** A record the engine rejected, with the engine's message. */
  datatype FailedRecord = FailedRecord(record: CsvRecord, error: string)

  datatype BatchResult = BatchResult(
    totalProcessed: nat,
    successful: nat,
    failed: nat,
    newOpportunities: nat,
    updatedOpportunities: nat,
    dsmActions: nat,
    crossSells: nat,
    upSells: nat,
    splits: nat,
    volumeDiscrepancies: nat,
    failedRecords: seq<FailedRecord>)

  /** The number of accepted records. */
  function CountAccepted(recs: seq<CsvRecord>): (n: nat)
    ensures n <= |recs|
  {
    if recs == [] then 0
    else CountAccepted(recs[..|recs| - 1]) + (if Accepted(recs[|recs| - 1]) then 1 else 0)
  }

  /** The rejected records, in order, each with the message the engine gives it. */
  function FailedRecords(recs: seq<CsvRecord>): (f: seq<FailedRecord>)
    ensures |f| + CountAccepted(recs) == |recs|
  {
    if recs == [] then []
    else
      var rec := recs[|recs| - 1];
      FailedRecords(recs[..|recs| - 1])
      + (if Accepted(rec) then [] else [FailedRecord(rec, "Invalid GSTIN format: " + Field(rec, "registration_no"))])
  }

  lemma {:induction false} CountAcceptedAppend(a: seq<CsvRecord>, b: seq<CsvRecord>)
    ensures CountAccepted(a + b) == CountAccepted(a) + CountAccepted(b)
    ensures FailedRecords(a + b) == FailedRecords(a) + FailedRecords(b)
    decreases |b|
  {
    if b == [] {
      assert a + b == a;
    } else {
      var n := |b|;
      assert (a + b)[..|a + b| - 1] == a + b[..n - 1];
      CountAcceptedAppend(a, b[..n - 1]);
    }
  }

  /**
   * The counters every run keeps: each record is processed once, as a
   * success or a failure; the engine never reports a created opportunity,
   * a cross-sell or a split, so every success counts as an update and those
   * counters stay 0; each success adds at most two actions, one up-sell and
   * one discrepancy.
   */
  predicate Consistent(res: BatchResult) {
    && res.successful + res.failed == res.totalProcessed
    && res.newOpportunities == 0 && res.updatedOpportunities == res.successful
    && res.crossSells == 0 && res.splits == 0
    && res.dsmActions <= 2 * res.successful
    && res.upSells <= res.successful && res.volumeDiscrepancies <= res.successful
  }

  /** The counters say exactly which records, of those run so far, succeeded and which failed. */
  predicate Counted(res: BatchResult, recs: seq<CsvRecord>) {
    && Consistent(res)
    && res.totalProcessed == |recs|
    && res.successful == CountAccepted(recs)
    && res.failedRecords == FailedRecords(recs)
  }

  /** What the counters need of the enhanced engine: it accepts exactly the well-formed GSTINs and reports at most two actions. */
  method RunEngine(db: Database, r: SalesRecord, lk: Lookups, batch: string, now: int) returns (out: Outcome)
    modifies db`leads, db`audit, db`skus, db`actions, db`callPlans, db`discrepancies
    ensures out.status == Succeeded <==> IsValidGstin(r.gstin)
    ensures out.status == Succeeded ==> |out.actions| <= 2
    ensures out.status != Succeeded ==> out.error == Some("Invalid GSTIN format: " + r.gstin)
  {
    out := EnhancedEngine.ValidateSalesRecord(db, r, lk, batch, now);
  }

  /** The counters of a run one record longer. */
  lemma CountedStep(done: seq<CsvRecord>, rec: CsvRecord)
    ensures CountAccepted(done + [rec]) == CountAccepted(done) + (if Accepted(rec) then 1 else 0)
    ensures FailedRecords(done + [rec]) == FailedRecords(done)
      + (if Accepted(rec) then [] else [FailedRecord(rec, "Invalid GSTIN format: " + Field(rec, "registration_no"))])
  {
    assert (done + [rec])[..|done|] == done;
  }

  /** Runs one record through the enhanced engine and adds its outcome to the counters. */
  method ProcessBatchRecord(db: Database, rec: CsvRecord, volumeOf: string -> real,
                            lookupsOf: SalesRecord -> Lookups, batch: string, now: int,
                            res0: BatchResult, ghost done: seq<CsvRecord>) returns (res: BatchResult)
    requires Counted(res0, done)
    modifies db`leads, db`audit, db`skus, db`actions, db`callPlans, db`discrepancies
    ensures Counted(res, done + [rec])
  {
    var r := ToSalesRecord(rec, volumeOf);
    var out := RunEngine(db, r, lookupsOf(r), batch, now);
    CountedStep(done, rec);
    if out.status == Succeeded {
      res := res0.(totalProcessed := res0.totalProcessed + 1,
                   successful := res0.successful + 1,
                   updatedOpportunities := res0.updatedOpportunities + 1,
                   dsmActions := res0.dsmActions + |out.actions|,
                   upSells := if out.upSellCreated then res0.upSells + 1 else res0.upSells,
                   volumeDiscrepancies := if out.discrepancy.Some? then res0.volumeDiscrepancies + 1 else res0.volumeDiscrepancies);
    } else {
      var error := if out.error.Some? then out.error.value else "Unknown error";
      res := res0.(totalProcessed := res0.totalProcessed + 1,
                   failed := res0.failed + 1,
                   failedRecords := res0.failedRecords + [FailedRecord(rec, error)]);
    }
  }

  /** Runs the records of one chunk in order. */
  method ProcessChunk(db: Database, chunk: seq<CsvRecord>, volumeOf: string -> real,
                      lookupsOf: SalesRecord -> Lookups, batch: string, now: int,
                      res0: BatchResult, ghost done: seq<CsvRecord>) returns (res: BatchResult)
    requires Counted(res0, done)
    modifies db`leads, db`audit, db`skus, db`actions, db`callPlans, db`discrepancies
    ensures Counted(res, done + chunk)
  {
    res := res0;
    var k := 0;
    assert done + chunk[..0] == done;
    while k < |chunk|
      invariant 0 <= k <= |chunk|
      invariant Counted(res, done + chunk[..k])
    {
      res := ProcessBatchRecord(db, chunk[k], volumeOf, lookupsOf, batch, now, res, done + chunk[..k]);
      assert done + chunk[..k] + [chunk[k]] == done + chunk[..k + 1];
      k := k + 1;
    }
    assert chunk[..k] == chunk;
  }

  /**
   * Runs the records chunk by chunk: afterwards every record has been
   * processed once, the successes are exactly the records with a
   * well-formed GSTIN, and the failures are listed in order with the
   * engine's message.
   */
  method ProcessRecordsInBatches(db: Database, recs: seq<CsvRecord>, volumeOf: string -> real,
                                 lookupsOf: SalesRecord -> Lookups, batch: string, now: int)
    returns (res: BatchResult)
    modifies db`leads, db`audit, db`skus, db`actions, db`callPlans, db`discrepancies
    ensures Counted(res, recs)
  {
    var chunks := Chunks(recs, BatchSize);
    res := BatchResult(0, 0, 0, 0, 0, 0, 0, 0, 0, 0, []);
    var b := 0;
    while b < |chunks|
      invariant 0 <= b <= |chunks|
      invariant Counted(res, Flatten(chunks[..b]))
    {
      FlattenSnoc(chunks, b);
      res := ProcessChunk(db, chunks[b], volumeOf, lookupsOf, batch, now, res, Flatten(chunks[..b]));
      b := b + 1;
    }
    assert chunks[..b] == chunks;
    ChunksFlatten(recs, BatchSize);
  }

  /** Parses the file and runs its records; a header missing a column is an error and changes nothing. */
  method ProcessDailyBatch(db: Database, file: CsvFile, volumeOf: string -> real,
                           lookupsOf: SalesRecord -> Lookups, batch: string, now: int)
    returns (r: Result<BatchResult>)
    modifies db`leads, db`audit, db`skus, db`actions, db`callPlans, db`discrepancies
    ensures file.header.Some? && MissingColumns(file.header.value) != [] ==>
      && r.Failure? && db.leads == old(db.leads) && db.audit == old(db.audit) && db.skus == old(db.skus)
      && db.actions == old(db.actions) && db.callPlans == old(db.callPlans) && db.discrepancies == old(db.discrepancies)
    ensures file.header.None? ==> r.Success? && Counted(r.value, [])
    ensures file.header.Some? && MissingColumns(file.header.value) == [] ==>
      r.Success? && Counted(r.value, ParsedRecords(file.header.value, file.rows))
  {
    var parsed := ParseCsvFile(file);
    if parsed.Failure? {
      return Failure(parsed.error);
    }
    var res := ProcessRecordsInBatches(db, parsed.value, volumeOf, lookupsOf, batch, now);
    r := Success(res);
  }
}
