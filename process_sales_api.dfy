/**
 * The HTTP endpoint for automated uploads: a POST body of JSON naming one
 * sale is checked for the required fields, written as a one-line CSV file
 * in the reader's own header layout, and run through the older intake; the
 * answer is 200 with the counters and at most five messages, 400 with the
 * intake's errors, 405 for another method and 500 for a body it refuses.
 *
 * The temporary file, the JSON and CSV encodings and the HTTP transport are
 * not part of this model: the request arrives decoded, and the file is the
 * header row and the data row the endpoint writes.
 */
module ProcessSalesApi {
  import opened Store
  import opened Gstin
  import opened EngineCommon
  import opened IntegrationProcessor

  /**
   * A decoded request body: not JSON at all, a JSON object of text values,
   * or a JSON list of such objects.
   */
  datatype Json = Malformed | Object(fields: map<string, string>) | List(items: seq<map<string, string>>)

  datatype Request = Request(verb: string, body: Json)

  /** The JSON answer: the counters of a processed file, an error message, or the intake's errors. */
  datatype ApiBody =
    | Processed(total: nat, processed: nat, newOpportunities: nat, updatedOpportunities: nat,
                failed: nat, dsmActions: nat, messages: seq<FileMsg>)
    | ErrorMessage(message: string)
    | ProcessingErrors(errors: seq<FileError>)

  datatype Response = Response(code: nat, body: ApiBody)

  /** PHP's truth value of the decoded body: invalid JSON and an empty object or list are false. */
  predicate Falsy(body: Json) {
    body.Malformed? || (body.Object? && body.fields == map[]) || (body.List? && body.items == [])
  }

  /** The first required field that is absent or empty in PHP's sense, in the order they are checked. */
  function FirstMissing(fields: map<string, string>, names: seq<string>): (f: Option<string>)
    ensures f.None? <==> AllPresent(fields, names)
    ensures f.Some? ==> f.value in names && (f.value !in fields || Empty(fields[f.value]))
  {
    if names == [] then None
    else if names[0] !in fields || Empty(fields[names[0]]) then Some(names[0])
    else FirstMissing(fields, names[1..])
  }

  /** Scans the required fields and stops at the first absent or empty one. */
  method FindMissingField(fields: map<string, string>) returns (missing: Option<string>)
    ensures missing == FirstMissing(fields, RequiredFields)
    ensures missing.None? <==> HasRequiredFields(fields)
  {
    var i := 0;
    while i < |RequiredFields|
      invariant 0 <= i <= |RequiredFields|
      invariant FirstMissing(fields, RequiredFields) == FirstMissing(fields, RequiredFields[i..])
    {
      var f := RequiredFields[i];
      assert RequiredFields[i..][1..] == RequiredFields[i + 1..];
      if f !in fields || Empty(fields[f]) {
        return Some(f);
      }
      i := i + 1;
    }
    missing := None;
  }

  /** The header row the endpoint writes: the reader's own column names. */
  const ApiHeaders: seq<string> := [
    "Invoice Date.", "DSR Name", "Customer Name", "Sector", "Sub Sector",
    "SKU Code", "Volume (L)", "Invoice No.", "Registration No", "Product Family"]

  /** The field each column of that header fills. */
  const ApiFields: seq<string> := [
    "invoice_date", "dsr_name", "customer_name", "sector", "sub_sector",
    "sku_code", "volume", "invoice_no", "registration_no", "product_family_name"]

  /** A value of the request, or a default when the request lacks it. */
  function ValueOr(fields: map<string, string>, f: string, default: string): string {
    if f in fields then fields[f] else default
  }

  /**
   * The data row the endpoint writes: the invoice date defaults to today,
   * sector, sub-sector, SKU and product family to "".
   */
  function SerializedRow(fields: map<string, string>, today: string): (row: seq<string>)
    ensures |row| == |ApiHeaders|
  {
    seq(|ApiFields|, i requires 0 <= i < |ApiFields| => ValueOr(fields, ApiFields[i], if i == 0 then today else ""))
  }

  /**
   * The record the request should become: the first `n` fields, each holding
   * its cell of the written row, trimmed.
   */
  function FieldsRecord(names: seq<string>, row: seq<string>, n: nat): RawRecord
    requires n <= |names| && |row| == |names|
  {
    if n == 0 then map[] else FieldsRecord(names, row, n - 1)[names[n - 1] := Trim(row[n - 1])]
  }

  function ApiRecord(fields: map<string, string>, today: string): RawRecord {
    var row := SerializedRow(fields, today);
    FieldsRecord(ApiFields, row, |row|)
  }

  /** The file the endpoint writes for a request object. */
  function ApiFile(fields: map<string, string>, today: string): CsvFile {
    CsvFile(Some(ApiHeaders), [SerializedRow(fields, today)])
  }

  /** The reader recognises column `i` of the written header and maps it to field `i`. */
  lemma ApiHeaderEntry(i: nat)
    requires i < |ApiHeaders|
    ensures Trim(ApiHeaders[i]) in FieldMappings && FieldMappings[Trim(ApiHeaders[i])] == ApiFields[i]
  {
    TrimKeeps(ApiHeaders[i]);
  }

  /** The reader recognises every column the endpoint writes, and maps it to the field of the same name. */
  lemma ApiHeaderMap()
    ensures HeaderMap(ApiHeaders) == map i | 0 <= i < |ApiFields| :: ApiFields[i]
  {
    forall i | 0 <= i < |ApiHeaders|
      ensures Trim(ApiHeaders[i]) in FieldMappings && FieldMappings[Trim(ApiHeaders[i])] == ApiFields[i]
    {
      ApiHeaderEntry(i);
    }
  }

  /** Reading the first `n` columns of the written row through that map builds the first `n` fields. */
  lemma {:induction false} ReadBackPrefix(names: seq<string>, row: seq<string>, n: nat)
    requires n <= |names| && |row| == |names|
    ensures RowRecord(map i | 0 <= i < |names| :: names[i], row, n) == FieldsRecord(names, row, n)
  {
    if n > 0 {
      ReadBackPrefix(names, row, n - 1);
    }
  }

  /** Reading back the written row gives every request field, trimmed, under its own name. */
  lemma ReadBack(fields: map<string, string>, today: string)
    ensures RowRecord(HeaderMap(ApiHeaders), SerializedRow(fields, today), |ApiHeaders|) == ApiRecord(fields, today)
  {
    ApiHeaderMap();
    ReadBackPrefix(ApiFields, SerializedRow(fields, today), |ApiFields|);
  }

  /** A file of one data row yields what that row yields. */
  lemma SingleRowIntake(hm: map<nat, string>, width: nat, row: seq<string>)
    ensures Intake(hm, width, [row]) == ReadRow(hm, width, row)
  {
    assert [row][..0] == [];
  }

  /** The written file yields one record when the trimmed required fields are all non-empty, and none otherwise. */
  lemma ApiIntake(fields: map<string, string>, today: string)
    ensures Intake(HeaderMap(ApiHeaders), |ApiHeaders|, [SerializedRow(fields, today)]) ==
      if HasRequiredFields(ApiRecord(fields, today)) then [ApiRecord(fields, today)] else []
  {
    var hm := HeaderMap(ApiHeaders);
    var row := SerializedRow(fields, today);
    SingleRowIntake(hm, |ApiHeaders|, row);
    ReadBack(fields, today);
  }

  /**
   * Runs the file written for a request through the intake: it succeeds
   * exactly when the record survives the reader's trimming and checks, and
   * then the file held one record, failed exactly when its GSTIN is
   * malformed; a failed record contributes no engine message.
   */
  method ProcessApiFile(db: Database, fields: map<string, string>, today: string, volumeOf: string -> real,
                        soldLastYear: (string, string) -> bool, batch: string, now: int) returns (res: FileResult)
    modifies db`leads, db`audit, db`actions, db`backups
    ensures res.status == Succeeded <==> HasRequiredFields(ApiRecord(fields, today))
    ensures res.status == Succeeded ==>
      && res.total == 1
      && res.failed == (if IsValidGstin(Field(ApiRecord(fields, today), "registration_no")) then 0 else 1)
      && res.processed == 1 - res.failed
      && |res.messages| > 0 && res.messages[|res.messages| - 1] == Completed(res.processed, 1)
      && (res.failed == 1 ==> res.messages == [Completed(0, 1)])
  {
    var file := ApiFile(fields, today);
    assert file.header.value == ApiHeaders && file.rows == [SerializedRow(fields, today)];
    ApiIntake(fields, today);
    res := ProcessSalesFile(db, file, "csv", volumeOf, soldLastYear, batch, now);
  }

  /** The first five messages of a list, or all of them when there are fewer (`array_slice($m, 0, 5)`). */
  function FirstFive(ms: seq<FileMsg>): (f: seq<FileMsg>)
    ensures |f| == if |ms| <= 5 then |ms| else 5
    ensures f <= ms
  {
    if |ms| <= 5 then ms else ms[..5]
  }

  /**
   * Handles one request. Another method than POST is refused with 405. A
   * body that is not JSON, or is empty, and a body missing a required field
   * get 500; a JSON list always lacks the field 'registration_no', so every
   * list is refused. Otherwise the written file is processed: 200 when the
   * record survives the reader's trimming and checks, with the intake's
   * counters and its first five messages, else 400 with the intake's
   * errors. `intake` is the intake's result, when the file was processed.
   */
  method HandleRequest(db: Database, req: Request, today: string, volumeOf: string -> real,
                       soldLastYear: (string, string) -> bool, batch: string, now: int)
    returns (resp: Response, ghost intake: Option<FileResult>)
    modifies db`leads, db`audit, db`actions, db`backups
    ensures req.verb != "POST" ==> resp == Response(405, ErrorMessage("Method not allowed"))
    ensures req.verb == "POST" && Falsy(req.body) ==> resp == Response(500, ErrorMessage("Invalid JSON data"))
    ensures req.verb == "POST" && req.body.List? && req.body.items != [] ==>
      resp == Response(500, ErrorMessage("Missing required field: registration_no"))
    ensures req.verb == "POST" && req.body.Object? && req.body.fields != map[] && !HasRequiredFields(req.body.fields) ==>
      && var f := FirstMissing(req.body.fields, RequiredFields);
      && f.Some? && resp == Response(500, ErrorMessage("Missing required field: " + f.value))
    ensures req.verb == "POST" && req.body.Object? && HasRequiredFields(req.body.fields) ==>
      && (resp.code == 200 <==> HasRequiredFields(ApiRecord(req.body.fields, today)))
      && (resp.code == 200 || resp.code == 400)
    ensures resp.code == 200 ==>
      && intake.Some? && intake.value.status == Succeeded
      && resp.body == Processed(intake.value.total, intake.value.processed, intake.value.newOpportunities,
                                intake.value.updatedOpportunities, intake.value.failed, intake.value.dsmActions,
                                FirstFive(intake.value.messages))
    ensures resp.code == 200 ==>
      && req.body.Object?
      && resp.body.total == 1
      && resp.body.failed == (if IsValidGstin(Field(ApiRecord(req.body.fields, today), "registration_no")) then 0 else 1)
      && resp.body.processed == 1 - resp.body.failed
      && (resp.body.failed == 1 ==> resp.body.messages == [Completed(0, 1)])
    ensures resp.code == 400 ==>
      intake.Some? && intake.value.status == Failed && resp.body == ProcessingErrors(intake.value.errors)
  {
    intake := None;
    if req.verb != "POST" {
      return Response(405, ErrorMessage("Method not allowed")), None;
    }
    if Falsy(req.body) {
      return Response(500, ErrorMessage("Invalid JSON data")), None;
    }
    if req.body.List? {
      return Response(500, ErrorMessage("Missing required field: registration_no")), None;
    }
    var fields := req.body.fields;
    var missing := FindMissingField(fields);
    if missing.Some? {
      return Response(500, ErrorMessage("Missing required field: " + missing.value)), None;
    }
    var res := ProcessApiFile(db, fields, today, volumeOf, soldLastYear, batch, now);
    intake := Some(res);
    if res.status == Succeeded {
      var shown := FirstFive(res.messages);
      resp := Response(200, Processed(res.total, res.processed, res.newOpportunities, res.updatedOpportunities,
                                      res.failed, res.dsmActions, shown));
    } else {
      resp := Response(400, ProcessingErrors(res.errors));
    }
  }

  /** The ten field names are distinct. */
  lemma ApiFieldsDistinct()
    ensures forall i, j :: 0 <= i < j < |ApiFields| ==> ApiFields[i] != ApiFields[j]
  {
  }

  /** A field holds its own cell when no later field has the same name. */
  lemma {:induction false} FieldsRecordValue(names: seq<string>, row: seq<string>, n: nat, i: nat)
    requires n <= |names| && |row| == |names| && i < n
    requires forall j :: i < j < n ==> names[j] != names[i]
    ensures names[i] in FieldsRecord(names, row, n) && FieldsRecord(names, row, n)[names[i]] == Trim(row[i])
  {
    if i < n - 1 {
      FieldsRecordValue(names, row, n - 1, i);
    }
  }

  /** Each field of the expected record is the request's value, or its default, trimmed. */
  lemma ApiRecordField(fields: map<string, string>, today: string, i: nat)
    requires i < |ApiFields|
    ensures ApiFields[i] in ApiRecord(fields, today)
    ensures ApiRecord(fields, today)[ApiFields[i]] == Trim(SerializedRow(fields, today)[i])
  {
    ApiFieldsDistinct();
    FieldsRecordValue(ApiFields, SerializedRow(fields, today), |ApiFields|, i);
  }

  /**
   * The endpoint's own check and the reader's disagree on blank text: a
   * volume of spaces passes the endpoint's check, but the reader trims it to
   * "" and drops the record, so the request is answered 400.
   */
  lemma BlankVolumeDropped(fields: map<string, string>, today: string)
    requires "volume" in fields && Trim(fields["volume"]) == ""
    ensures !HasRequiredFields(ApiRecord(fields, today))
  {
    ApiRecordField(fields, today, 6);
    AllPresentMeans(ApiRecord(fields, today), RequiredFields);
    assert "volume" in RequiredFields;
  }

  /** Field `f` of a record is present and non-empty. */
  predicate FieldKept(rec: RawRecord, f: string) {
    f in rec && !Empty(rec[f])
  }

  /** A request field that is non-empty after trimming is kept, non-empty, in the expected record. */
  lemma ApiFieldKept(fields: map<string, string>, today: string, i: nat, f: string)
    requires i < |ApiFields| && f == ApiFields[i] && f in fields && !Empty(Trim(fields[f]))
    ensures FieldKept(ApiRecord(fields, today), f)
  {
    ApiRecordField(fields, today, i);
    assert SerializedRow(fields, today)[i] == fields[f];
  }

  /** A record keeping each required field has them all. */
  lemma RequiredFieldsKept(rec: RawRecord)
    requires FieldKept(rec, "registration_no") && FieldKept(rec, "customer_name") && FieldKept(rec, "dsr_name")
    requires FieldKept(rec, "volume") && FieldKept(rec, "invoice_no")
    ensures HasRequiredFields(rec)
  {
    AllPresentMeans(rec, RequiredFields);
  }

  /** A request whose required fields are non-empty after trimming keeps them in the expected record. */
  lemma TrimmedFieldsComplete(fields: map<string, string>, today: string)
    requires forall f :: f in RequiredFields ==> f in fields && !Empty(Trim(fields[f]))
    ensures HasRequiredFields(ApiRecord(fields, today))
  {
    ApiFieldKept(fields, today, 8, "registration_no");
    ApiFieldKept(fields, today, 2, "customer_name");
    ApiFieldKept(fields, today, 1, "dsr_name");
    ApiFieldKept(fields, today, 6, "volume");
    ApiFieldKept(fields, today, 7, "invoice_no");
    RequiredFieldsKept(ApiRecord(fields, today));
  }

  /** Such a request becomes exactly one record for the intake. */
  lemma TrimmedFieldsKept(fields: map<string, string>, today: string)
    requires forall f :: f in RequiredFields ==> f in fields && !Empty(Trim(fields[f]))
    ensures |Intake(HeaderMap(ApiHeaders), |ApiHeaders|, [SerializedRow(fields, today)])| == 1
  {
    TrimmedFieldsComplete(fields, today);
    ApiIntake(fields, today);
  }
}
