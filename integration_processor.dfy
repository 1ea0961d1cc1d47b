/**
 * The CSV intake of the older engine: the header row is mapped to field
 * names, each complete data row becomes a record of trimmed values, records
 * missing a required field are dropped, and each remaining record is backed
 * up (when its customer already has an active opportunity) and run through
 * the older engine, with counters of what happened.
 *
 * A parsed CSV file is a header row and data rows of cells; the reading of
 * the file itself, the staging and statistics tables and the batch id are
 * not part of this model. The numeric value of the `volume` text and the
 * previous-year sales lookup are given as functions.
 */
module IntegrationProcessor {
  import opened Store
  import opened Gstin
  import opened EngineCommon
  import AuditLogger
  import ValidationEngine

  // ----- Text helpers -----

  /** The characters PHP's `trim` removes: space, tab, newline, carriage return, NUL and vertical tab. */
  predicate IsTrimmed(c: char) {
    c == ' ' || c == '\t' || c == '\n' || c == '\r' || c == '\0' || c as int == 11
  }

  /** The number of trimmed characters at the start of `s`. */
  function LeadingTrimmed(s: string): (k: nat)
    ensures k <= |s|
    ensures k < |s| ==> !IsTrimmed(s[k])
  {
    if s != [] && IsTrimmed(s[0]) then 1 + LeadingTrimmed(s[1..]) else 0
  }

  /** The number of trimmed characters at the end of `s`. */
  function TrailingTrimmed(s: string): (k: nat)
    ensures k <= |s|
    ensures k < |s| ==> !IsTrimmed(s[|s| - 1 - k])
  {
    if s != [] && IsTrimmed(s[|s| - 1]) then 1 + TrailingTrimmed(s[..|s| - 1]) else 0
  }

  /** Only trimmed characters are counted at the start. */
  lemma {:induction false} LeadingAreTrimmed(s: string, i: nat)
    requires i < LeadingTrimmed(s)
    ensures IsTrimmed(s[i])
  {
    if i > 0 {
      LeadingAreTrimmed(s[1..], i - 1);
    }
  }

  /** Only trimmed characters are counted at the end. */
  lemma {:induction false} TrailingAreTrimmed(s: string, i: nat)
    requires |s| - TrailingTrimmed(s) <= i < |s|
    ensures IsTrimmed(s[i])
  {
    if i < |s| - 1 {
      TrailingAreTrimmed(s[..|s| - 1], i);
    }
  }

  /** PHP's `trim`: the string without the trimmed characters at either end. */
  function Trim(s: string): (t: string)
    ensures |t| <= |s|
    ensures t == [] || (!IsTrimmed(t[0]) && !IsTrimmed(t[|t| - 1]))
  {
    var u := s[LeadingTrimmed(s)..];
    u[..|u| - TrailingTrimmed(u)]
  }

  /** A string with nothing to trim at either end is its own trim. */
  lemma TrimKeeps(s: string)
    requires s == [] || (!IsTrimmed(s[0]) && !IsTrimmed(s[|s| - 1]))
    ensures Trim(s) == s
  {
    assert LeadingTrimmed(s) == 0;
    assert s[0..] == s;
    assert TrailingTrimmed(s) == 0;
  }

  /** Trimming twice is trimming once. */
  lemma TrimIdempotent(s: string)
    ensures Trim(Trim(s)) == Trim(s)
  {
    TrimKeeps(Trim(s));
  }

  /**
   * Turns an 8-character `YYYYMMDD` date into `YYYY-MM-DD`; a string of
   * any other length is returned unchanged.
   */
  function ConvertDateFormat(d: string): (r: string)
    ensures |d| == 8 ==> |r| == 10 && r[4] == '-' && r[7] == '-'
    ensures |d| != 8 ==> r == d
  {
    if |d| == 8 then d[0..4] + "-" + d[4..6] + "-" + d[6..8] else d
  }

  /** The converted date read back without its dashes: the inverse of the conversion on 8-character dates. */
  function CompactDate(r: string): string {
    if |r| == 10 && r[4] == '-' && r[7] == '-' then r[0..4] + r[5..7] + r[8..10] else r
  }

  /** Converting then compacting gives back every 8-character date, and the conversion is idempotent. */
  lemma ConvertDateRoundTrip(d: string)
    ensures |d| == 8 ==> CompactDate(ConvertDateFormat(d)) == d
    ensures ConvertDateFormat(ConvertDateFormat(d)) == ConvertDateFormat(d)
  {
    if |d| == 8 {
      var r := ConvertDateFormat(d);
      assert r[0..4] == d[0..4] && r[5..7] == d[4..6] && r[8..10] == d[6..8];
      assert d == d[0..4] + d[4..6] + d[6..8];
    }
  }

  // ----- Header and row mapping -----

  /** A record as read from a row: field name to trimmed cell text. */
  type RawRecord = map<string, string>

  /** The header names the reader recognises and the field each one fills. */
  const FieldMappings: map<string, string> := map[
    "Invoice Date." := "invoice_date",
    "DSR Name" := "dsr_name",
    "Customer Name" := "customer_name",
    "Sector" := "sector",
    "Sub Sector" := "sub_sector",
    "SKU Code" := "sku_code",
    "Volume (L)" := "volume",
    "Invoice No." := "invoice_no",
    "Registration No" := "registration_no",
    "Product Family" := "product_family_name"]

  /** The header map of a header row: each column whose trimmed name is recognised, to its field. */
  function HeaderMap(headers: seq<string>): (hm: map<nat, string>)
    ensures forall i :: i in hm <==> 0 <= i < |headers| && Trim(headers[i]) in FieldMappings
    ensures forall i :: i in hm ==> hm[i] == FieldMappings[Trim(headers[i])]
  {
    map i | 0 <= i < |headers| && Trim(headers[i]) in FieldMappings :: FieldMappings[Trim(headers[i])]
  }

  /** Builds the header map column by column; unrecognised headers are ignored. */
  method CreateHeaderMap(headers: seq<string>) returns (hm: map<nat, string>)
    ensures hm == HeaderMap(headers)
  {
    hm := map[];
    var i := 0;
    while i < |headers|
      invariant 0 <= i <= |headers|
      invariant forall k :: k in hm <==> 0 <= k < i && Trim(headers[k]) in FieldMappings
      invariant forall k :: k in hm ==> hm[k] == FieldMappings[Trim(headers[k])]
    {
      var h := Trim(headers[i]);
      if h in FieldMappings {
        hm := hm[i := FieldMappings[h]];
      }
      i := i + 1;
    }
  }

  /** The trimmed cell `k` of a row, or "" when the row has no such cell. */
  function Cell(row: seq<string>, k: nat): string {
    if k < |row| then Trim(row[k]) else ""
  }

  /**
   * The record built from the first `n` columns of the header map, column
   * by column: a later column mapped to the same field overwrites an earlier one.
   */
  function RowRecord(hm: map<nat, string>, row: seq<string>, n: nat): RawRecord {
    if n == 0 then map[]
    else if n - 1 in hm then RowRecord(hm, row, n - 1)[hm[n - 1] := Cell(row, n - 1)]
    else RowRecord(hm, row, n - 1)
  }

  /** A field is in the record exactly when some mapped column fills it. */
  lemma {:induction false} RowRecordFields(hm: map<nat, string>, row: seq<string>, n: nat, f: string)
    ensures f in RowRecord(hm, row, n) <==> exists i :: 0 <= i < n && i in hm && hm[i] == f
  {
    if n > 0 {
      RowRecordFields(hm, row, n - 1, f);
    }
  }

  /** A field holds the trimmed cell of the last column mapped to it. */
  lemma {:induction false} RowRecordValue(hm: map<nat, string>, row: seq<string>, n: nat, i: nat)
    requires i < n && i in hm
    requires forall j :: i < j < n && j in hm ==> hm[j] != hm[i]
    ensures hm[i] in RowRecord(hm, row, n) && RowRecord(hm, row, n)[hm[i]] == Cell(row, i)
  {
    if n - 1 != i {
      RowRecordValue(hm, row, n - 1, i);
    }
  }

  /** Maps one data row through the header map, in column order. */
  method MapRow(hm: map<nat, string>, row: seq<string>, width: nat) returns (rec: RawRecord)
    ensures rec == RowRecord(hm, row, width)
  {
    rec := map[];
    var i := 0;
    while i < width
      invariant 0 <= i <= width
      invariant rec == RowRecord(hm, row, i)
    {
      if i in hm {
        rec := rec[hm[i] := Cell(row, i)];
      }
      i := i + 1;
    }
  }

  /** The fields a record must carry, each non-empty in PHP's sense ("" and "0" are empty). */
  const RequiredFields: seq<string> := ["registration_no", "customer_name", "dsr_name", "volume", "invoice_no"]

  /** Each of `names` is present in the record and non-empty. */
  predicate AllPresent(rec: RawRecord, names: seq<string>) {
    names == [] || (names[0] in rec && !Empty(rec[names[0]]) && AllPresent(rec, names[1..]))
  }

  predicate HasRequiredFields(rec: RawRecord) {
    AllPresent(rec, RequiredFields)
  }

  /** The list-by-list check means: every listed field is present and non-empty. */
  lemma {:induction false} AllPresentMeans(rec: RawRecord, names: seq<string>)
    ensures AllPresent(rec, names) <==> forall f :: f in names ==> f in rec && !Empty(rec[f])
  {
    if names != [] {
      AllPresentMeans(rec, names[1..]);
      assert forall f :: f in names <==> f == names[0] || f in names[1..];
    }
  }

  /** Scans the required fields and stops at the first missing or empty one. */
  method ValidateRequiredFields(rec: RawRecord) returns (ok: bool)
    ensures ok <==> HasRequiredFields(rec)
  {
    var i := 0;
    while i < |RequiredFields|
      invariant 0 <= i <= |RequiredFields|
      invariant HasRequiredFields(rec) == AllPresent(rec, RequiredFields[i..])
    {
      var f := RequiredFields[i];
      assert RequiredFields[i..][1..] == RequiredFields[i + 1..];
      if f !in rec || Empty(rec[f]) {
        return false;
      }
      i := i + 1;
    }
    ok := true;
  }

  /** A parsed CSV file: its header row, if the file has one, and its data rows. */
  datatype CsvFile = CsvFile(header: Option<seq<string>>, rows: seq<seq<string>>)

  /** The record one data row contributes: none when it is short or incomplete. */
  function ReadRow(hm: map<nat, string>, width: nat, row: seq<string>): (recs: seq<RawRecord>)
    ensures |recs| <= 1
    ensures |recs| == 1 <==> |row| >= width && HasRequiredFields(RowRecord(hm, row, width))
    ensures |recs| == 1 ==> recs[0] == RowRecord(hm, row, width)
  {
    if |row| < width then []
    else
      var rec := RowRecord(hm, row, width);
      if HasRequiredFields(rec) then [rec] else []
  }

  /**
   * The records read from data rows: rows with fewer cells than the header
   * are skipped, the others are mapped and kept, in file order, when they
   * carry every required field.
   */
  function Intake(hm: map<nat, string>, width: nat, rows: seq<seq<string>>): (recs: seq<RawRecord>)
    ensures |recs| <= |rows|
    ensures forall k :: 0 <= k < |recs| ==> HasRequiredFields(recs[k])
  {
    if rows == [] then []
    else Intake(hm, width, rows[..|rows| - 1]) + ReadRow(hm, width, rows[|rows| - 1])
  }

  /** Intake of a prefix one row longer: the new row is added exactly when it is long enough and complete. */
  lemma IntakeStep(hm: map<nat, string>, width: nat, rows: seq<seq<string>>, k: nat)
    requires k < |rows|
    ensures Intake(hm, width, rows[..k + 1]) ==
      Intake(hm, width, rows[..k]) + ReadRow(hm, width, rows[k])
  {
    assert rows[..k + 1][..k] == rows[..k];
  }

  /** Reads one data row, mapping it only when it is as long as the header. */
  method ReadDataRow(hm: map<nat, string>, width: nat, row: seq<string>) returns (recs: seq<RawRecord>)
    ensures recs == ReadRow(hm, width, row)
  {
    recs := [];
    if |row| >= width {
      var rec := MapRow(hm, row, width);
      var ok := ValidateRequiredFields(rec);
      if ok {
        recs := [rec];
      }
    }
  }

  /** Reads the records of a parsed CSV file; a file without a header row is an error. */
  method ReadCsvFile(file: CsvFile) returns (r: Result<seq<RawRecord>>)
    ensures file.header.None? ==> r == Failure("Invalid CSV file - no headers found")
    ensures file.header.Some? ==>
      r == Success(Intake(HeaderMap(file.header.value), |file.header.value|, file.rows))
  {
    if file.header.None? {
      return Failure("Invalid CSV file - no headers found");
    }
    var headers := file.header.value;
    var hm := CreateHeaderMap(headers);
    var recs: seq<RawRecord> := [];
    var k := 0;
    while k < |file.rows|
      invariant 0 <= k <= |file.rows|
      invariant recs == Intake(hm, |headers|, file.rows[..k])
    {
      var more := ReadDataRow(hm, |headers|, file.rows[k]);
      IntakeStep(hm, |headers|, file.rows, k);
      recs := recs + more;
      k := k + 1;
    }
    assert file.rows[..k] == file.rows;
    r := Success(recs);
  }

  // ----- Processing -----

  /** A field of a record, or "" when the record lacks it. */
  function Field(rec: RawRecord, f: string): string {
    if f in rec then rec[f] else ""
  }

  /** The sales record the older engine sees for a read record; `volumeOf` is PHP's `floatval`. */
  function ToSalesRecord(rec: RawRecord, volumeOf: string -> real): (r: SalesRecord)
    ensures r.gstin == Field(rec, "registration_no") && r.volume == volumeOf(Field(rec, "volume"))
    ensures r.tier.None? && r.oppType.None? && r.originalEnteredDate.None?
  {
    SalesRecord(
      gstin := Field(rec, "registration_no"),
      customerName := Field(rec, "customer_name"),
      dsrName := Field(rec, "dsr_name"),
      family := Field(rec, "product_family_name"),
      sku := Field(rec, "sku_code"),
      volume := volumeOf(Field(rec, "volume")),
      sector := Field(rec, "sector"),
      subSector := Field(rec, "sub_sector"),
      tier := None,
      oppType := None,
      originalEnteredDate := None)
  }

  /**
   * Processes one record: backs up the customer's first active opportunity
   * if there is one, then runs the older engine. The record succeeds exactly
   * when its GSTIN is well formed; it then counts as an update when an
   * active opportunity existed, and reports at most two action codes.
   */
  method ProcessSalesRecord(db: Database, r: SalesRecord, skuSoldLastYear: bool, batch: string, now: int)
    returns (ok: bool, existing: bool, actions: nat, msgs: seq<Msg>)
    modifies db`leads, db`audit, db`actions, db`backups
    ensures ok <==> IsValidGstin(r.gstin)
    ensures existing <==> FindByGstin(old(db.leads), r.gstin, true).Some?
    ensures actions <= 2
    ensures !ok ==> db.leads == old(db.leads)
  {
    var found := FindByGstin(db.leads, r.gstin, true);
    existing := found.Some?;
    if existing {
      var _ := AuditLogger.CreateBackup(db, found.value, batch, now);
    }
    var out := ValidationEngine.ValidateSalesRecord(db, r, skuSoldLastYear, batch, now);
    ok := out.status == Succeeded;
    actions := |out.actions|;
    msgs := out.messages;
  }

  /** A failure recorded for the file: a record (numbered from 1 in the list of read records) or the whole file. */
  datatype FileError = RowFailed(row: nat) | ProcessingFailed(reason: string)

  /** A message of the file result: one of the engine's, or the closing count of processed records. */
  datatype FileMsg = EngineMsg(m: Msg) | Completed(processed: nat, total: nat)

  datatype FileResult = FileResult(
    status: Status,
    total: nat,
    processed: nat,
    failed: nat,
    newOpportunities: nat,
    updatedOpportunities: nat,
    dsmActions: nat,
    errors: seq<FileError>,
    messages: seq<FileMsg>)

  /** The rows (numbered from 1) whose GSTIN the engine rejects, in order. */
  function RejectedRows(recs: seq<RawRecord>): (e: seq<FileError>)
    ensures |e| <= |recs|
  {
    if recs == [] then []
    else
      RejectedRows(recs[..|recs| - 1])
      + (if IsValidGstin(Field(recs[|recs| - 1], "registration_no")) then [] else [RowFailed(|recs|)])
  }

  /** The rejected rows of a prefix one record longer: that record's row is added exactly when its GSTIN is malformed. */
  lemma RejectedRowsStep(recs: seq<RawRecord>, k: nat)
    requires k < |recs|
    ensures RejectedRows(recs[..k + 1]) ==
      RejectedRows(recs[..k]) + (if IsValidGstin(Field(recs[k], "registration_no")) then [] else [RowFailed(k + 1)])
  {
    assert recs[..k + 1][..k] == recs[..k];
  }

  /** The engine's messages, as messages of the file result. */
  function EngineMsgs(msgs: seq<Msg>): (fm: seq<FileMsg>)
    ensures |fm| == |msgs| && forall i :: 0 <= i < |msgs| ==> fm[i] == EngineMsg(msgs[i])
  {
    seq(|msgs|, i requires 0 <= i < |msgs| => EngineMsg(msgs[i]))
  }

  /** The running counters are consistent: every processed record is new or updated and made at most two actions. */
  predicate Tallied(res: FileResult) {
    && res.newOpportunities + res.updatedOpportunities == res.processed
    && res.dsmActions <= 2 * res.processed
  }

  /**
   * Processes the record numbered `k + 1` and adds it to the counters: a
   * success counts as processed and as new or updated, a failure as failed
   * with its row in the errors.
   */
  method ProcessFileRecord(db: Database, rec: RawRecord, k: nat, volumeOf: string -> real,
                           soldLastYear: (string, string) -> bool, batch: string, now: int, res0: FileResult)
    returns (res: FileResult)
    requires Tallied(res0)
    modifies db`leads, db`audit, db`actions, db`backups
    ensures res.status == res0.status && res.total == res0.total && Tallied(res)
    ensures res.processed + res.failed == res0.processed + res0.failed + 1
    ensures res.failed == res0.failed + (if IsValidGstin(Field(rec, "registration_no")) then 0 else 1)
    ensures !IsValidGstin(Field(rec, "registration_no")) ==> res.messages == res0.messages
    ensures res.errors == res0.errors +
      (if IsValidGstin(Field(rec, "registration_no")) then [] else [RowFailed(k + 1)])
  {
    var r := ToSalesRecord(rec, volumeOf);
    var ok, existing, actions, msgs := ProcessSalesRecord(db, r, soldLastYear(r.gstin, r.sku), batch, now);
    if ok {
      res := res0.(processed := res0.processed + 1,
                   newOpportunities := if existing then res0.newOpportunities else res0.newOpportunities + 1,
                   updatedOpportunities := if existing then res0.updatedOpportunities + 1 else res0.updatedOpportunities,
                   dsmActions := res0.dsmActions + actions,
                   messages := res0.messages + EngineMsgs(msgs));
    } else {
      res := res0.(failed := res0.failed + 1, errors := res0.errors + [RowFailed(k + 1)]);
    }
  }

  /**
   * The result of running the records `recs` of a file: every record is
   * processed or failed, the failures are exactly the rows with a malformed
   * GSTIN, and the messages close with the processed count (and are only that
   * when nothing was processed).
   */
  predicate CountedFile(res: FileResult, recs: seq<RawRecord>) {
    && res.total == |recs| && Tallied(res)
    && res.processed + res.failed == res.total
    && res.failed == |RejectedRows(recs)| && res.errors == RejectedRows(recs)
    && |res.messages| > 0 && res.messages[|res.messages| - 1] == Completed(res.processed, res.total)
    && (res.processed == 0 ==> res.messages == [Completed(0, res.total)])
  }

  /** Runs every read record in order and closes with the count of processed records. */
  method ProcessRecords(db: Database, recs: seq<RawRecord>, volumeOf: string -> real,
                        soldLastYear: (string, string) -> bool, batch: string, now: int) returns (res: FileResult)
    modifies db`leads, db`audit, db`actions, db`backups
    ensures res.status == Succeeded && CountedFile(res, recs)
  {
    res := FileResult(Succeeded, |recs|, 0, 0, 0, 0, 0, [], []);
    var k := 0;
    while k < |recs|
      invariant 0 <= k <= |recs|
      invariant res.status == Succeeded && res.total == |recs| && Tallied(res)
      invariant res.processed + res.failed == k
      invariant res.failed == |RejectedRows(recs[..k])| && res.errors == RejectedRows(recs[..k])
      invariant res.processed == 0 ==> res.messages == []
    {
      RejectedRowsStep(recs, k);
      res := ProcessFileRecord(db, recs[k], k, volumeOf, soldLastYear, batch, now, res);
      k := k + 1;
    }
    assert recs[..k] == recs;
    res := res.(messages := res.messages + [Completed(res.processed, res.total)]);
  }

  /**
   * Processes a parsed file: reads its records ('csv' and 'excel' files are
   * both read as CSV, any other type yields none), fails when there are
   * none, and otherwise runs every record, counting each as processed or
   * failed; a record fails exactly when its GSTIN is malformed.
   */
  method ProcessSalesFile(db: Database, file: CsvFile, fileType: string, volumeOf: string -> real,
                          soldLastYear: (string, string) -> bool, batch: string, now: int) returns (res: FileResult)
    modifies db`leads, db`audit, db`actions, db`backups
    ensures file.header.None? && (fileType == "csv" || fileType == "excel") ==>
      res.status == Failed && res.errors == [ProcessingFailed("Invalid CSV file - no headers found")]
    ensures res.status == Succeeded ==>
      && file.header.Some? && (fileType == "csv" || fileType == "excel")
      && var recs := Intake(HeaderMap(file.header.value), |file.header.value|, file.rows);
      && recs != [] && CountedFile(res, recs)
    ensures res.status == Failed ==> res.processed == 0 && res.failed == 0 && |res.errors| == 1
    ensures (file.header.Some? && (fileType == "csv" || fileType == "excel")
             && Intake(HeaderMap(file.header.value), |file.header.value|, file.rows) != []) ==> res.status == Succeeded
  {
    var recs: seq<RawRecord> := [];
    if fileType == "csv" || fileType == "excel" {
      var read := ReadCsvFile(file);
      if read.Failure? {
        return FileResult(Failed, 0, 0, 0, 0, 0, 0, [ProcessingFailed(read.error)], []);
      }
      recs := read.value;
    }
    if recs == [] {
      return FileResult(Failed, 0, 0, 0, 0, 0, 0, [ProcessingFailed("No valid sales records found in file")], []);
    }
    res := ProcessRecords(db, recs, volumeOf, soldLastYear, batch, now);
  }

  /** A record read from a file always carries the five required fields; so does every record the engine is given. */
  lemma IntakeKeepsOnlyComplete(hm: map<nat, string>, width: nat, rows: seq<seq<string>>, k: nat)
    requires k < |Intake(hm, width, rows)|
    ensures "registration_no" in Intake(hm, width, rows)[k] && !Empty(Intake(hm, width, rows)[k]["registration_no"])
    ensures "volume" in Intake(hm, width, rows)[k] && !Empty(Intake(hm, width, rows)[k]["volume"])
  {
    AllPresentMeans(Intake(hm, width, rows)[k], RequiredFields);
    assert "registration_no" in RequiredFields && "volume" in RequiredFields;
  }

  /** A row shorter than the header is never read, whatever it holds. */
  lemma {:induction false} ShortRowSkipped(hm: map<nat, string>, width: nat, rows: seq<seq<string>>, row: seq<string>)
    requires |row| < width
    ensures Intake(hm, width, rows + [row]) == Intake(hm, width, rows)
  {
    assert (rows + [row])[..|rows|] == rows;
  }
}
