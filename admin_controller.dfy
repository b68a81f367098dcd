/**
 * The admin handlers (src/controllers/adminController.js): the bulk upload
 * of restaurants from a CSV or JSON file, the restaurant listing with its
 * categories grouped in, and the status each create, get, update and delete
 * handler answers with.
 */
module AdminController {
  import opened Js
  import opened Text
  import opened Store
  import opened Http
  import RestaurantModel
  import DealModel
  import RestaurantService
  import DealService

  // ---------------------------------------------------------------------------
  // Bulk upload: the CSV rows

  /** A CSV record as the parser yields it with a header row: header to cell text. */
  type CsvRecord = map<string, string>

  /** Where an upload error belongs: a 1-based CSV row, or `'N/A'` for the insert. */
  datatype RowRef = Numbered(n: nat) | NotApplicable

  /** An entry of the report's `errors`: `{ row, message, data }`. */
  datatype RowError = RowError(row: RowRef, message: string, data: Option<CsvRecord>)

  const MissingFieldMessage: string := "Missing required field (name or address)"

  /** The four columns coerced to numbers. */
  const NumericKeys: set<string> := {"average_rating", "reviews_count", "latitude", "longitude"}

  /** `row.key` on a record: the cell text, or `undefined` for a missing column. */
  function Cell(record: CsvRecord, key: string): (v: Value)
    ensures v.Str? <==> key in record
  {
    if key in record then Str(record[key]) else Undefined
  }

  /** The text `parseFloat` / `parseInt` read: `String(row.key)`. */
  function CellText(record: CsvRecord, key: string): string
  {
    if key in record then record[key] else "undefined"
  }

  /** A row is rejected when its `name` or `address` is missing or empty. */
  predicate Rejected(record: CsvRecord)
  {
    !Truthy(Cell(record, "name")) || !Truthy(Cell(record, "address"))
  }

  /** The text cells of a record, as a row. */
  function Cells(record: CsvRecord): (row: Row)
    ensures row.Keys == record.Keys
    ensures forall k :: k in record ==> row[k] == Str(record[k])
  {
    map k | k in record :: Str(record[k])
  }

  /** `parseFloat(row.average_rating) || 0`: the parsed rating, or 0 when it is NaN or 0. */
  function RatingOf(record: CsvRecord, parseFloat: string -> Parsed<real>): (v: Value)
    ensures v.Num?
    ensures parseFloat(CellText(record, "average_rating")).Number? ==>
      v == Num(parseFloat(CellText(record, "average_rating")).value)
    ensures parseFloat(CellText(record, "average_rating")).NotANumber? ==> v == Num(0.0)
  {
    Or(FloatValue(parseFloat(CellText(record, "average_rating"))), Num(0.0))
  }

  /** `parseInt(row.reviews_count, 10) || 0`: the parsed count, or 0 when it is NaN. */
  function CountOf(record: CsvRecord): (v: Value)
    ensures v.Num?
    ensures ParseInt(CellText(record, "reviews_count")).Number? ==>
      v == Num(ParseInt(CellText(record, "reviews_count")).value as real)
    ensures ParseInt(CellText(record, "reviews_count")).NotANumber? ==> v == Num(0.0)
  {
    Or(IntValue(ParseInt(CellText(record, "reviews_count"))), Num(0.0))
  }

  /** `parseFloat(row[key]) || null`: the parsed coordinate, or `null` when it is NaN or exactly 0. */
  function CoordinateOf(record: CsvRecord, key: string, parseFloat: string -> Parsed<real>): (v: Value)
    ensures v.Null? || (v.Num? && v.n != 0.0)
    ensures v.Null? <==> parseFloat(CellText(record, key)) in {NotANumber, Number(0.0)}
    ensures v.Num? ==> parseFloat(CellText(record, key)) == Number(v.n)
  {
    Or(FloatValue(parseFloat(CellText(record, key))), Null)
  }

  /** The four numeric columns with the values lines 50-53 give them. */
  function NumericCells(rating: Value, count: Value, latitude: Value, longitude: Value): (cells: Row)
    ensures cells.Keys == NumericKeys
    ensures cells["average_rating"] == rating && cells["reviews_count"] == count
    ensures cells["latitude"] == latitude && cells["longitude"] == longitude
  {
    map["average_rating" := rating, "reviews_count" := count, "latitude" := latitude, "longitude" := longitude]
  }

  /** The record after lines 50-53: its text cells, with the four numeric columns overwritten or added. */
  function Coerced(record: CsvRecord, parseFloat: string -> Parsed<real>): (row: Row)
    ensures row.Keys == record.Keys + NumericKeys
    ensures forall k :: k in record && k !in NumericKeys ==> row[k] == Str(record[k])
    ensures row["average_rating"] == RatingOf(record, parseFloat)
    ensures row["reviews_count"] == CountOf(record)
    ensures row["latitude"] == CoordinateOf(record, "latitude", parseFloat)
    ensures row["longitude"] == CoordinateOf(record, "longitude", parseFloat)
  {
    var numeric := NumericCells(RatingOf(record, parseFloat), CountOf(record),
      CoordinateOf(record, "latitude", parseFloat), CoordinateOf(record, "longitude", parseFloat));
    Cells(record) + numeric
  }

  /** A coordinate that parses as exactly 0 is stored as `null`, like one that does not parse. */
  lemma ZeroCoordinateBecomesNull(record: CsvRecord, parseFloat: string -> Parsed<real>)
    requires parseFloat(CellText(record, "latitude")) == Number(0.0)
    ensures Prepared(record, parseFloat)["latitude"] == Null
  {
    assert Coerced(record, parseFloat)["latitude"] == CoordinateOf(record, "latitude", parseFloat);
  }

  /** A missing `reviews_count` column is read as `"undefined"`, which `parseInt` cannot read: it becomes 0. */
  lemma MissingCountIsZero(record: CsvRecord, parseFloat: string -> Parsed<real>)
    requires "reviews_count" !in record
    ensures Coerced(record, parseFloat)["reviews_count"] == Num(0.0)
  {
    assert Coerced(record, parseFloat)["reviews_count"] == CountOf(record);
    UndefinedIsNotANumber();
  }

  /** `parseInt(String(undefined), 10)` is NaN. */
  lemma UndefinedIsNotANumber()
    ensures ParseInt("undefined") == NotANumber
  {
    assert "undefined"[0] == 'u';
    assert !IsJsWhitespace('u') && !IsDigit('u');
    assert TrimStart("undefined") == "undefined";
    assert DigitPrefixLength("undefined") == 0;
  }

  /** `Object.fromEntries(… value === '' ? null : value)`: every key kept, empty strings become `null`. */
  function Clean(row: Row): (cleaned: Row)
    ensures cleaned.Keys == row.Keys
    ensures forall k :: k in cleaned ==> cleaned[k] != Str("")
    ensures forall k :: k in row && row[k] == Str("") ==> cleaned[k] == Null
    ensures forall k :: k in row && row[k] != Str("") ==> cleaned[k] == row[k]
  {
    map k | k in row :: if row[k] == Str("") then Null else row[k]
  }

  /** What an accepted record is batched as. */
  function Prepared(record: CsvRecord, parseFloat: string -> Parsed<real>): Row
  {
    Clean(Coerced(record, parseFloat))
  }

  /** A batched record keeps every column of the record and gains the four numeric ones. */
  lemma PreparedKeys(record: CsvRecord, parseFloat: string -> Parsed<real>)
    ensures Prepared(record, parseFloat).Keys == record.Keys + NumericKeys
  {
  }

  /** A text column outside the four numeric ones survives preparation; a non-empty one unchanged. */
  lemma NameKept(record: CsvRecord, parseFloat: string -> Parsed<real>, key: string)
    requires key in record && record[key] != "" && key !in NumericKeys
    ensures Prepared(record, parseFloat)[key] == Str(record[key])
  {
    assert Coerced(record, parseFloat)[key] == Str(record[key]);
  }

  /** The four numeric columns survive preparation as coerced: none of them is an empty string. */
  lemma NumericKept(record: CsvRecord, parseFloat: string -> Parsed<real>)
    ensures var row := Prepared(record, parseFloat);
      && "average_rating" in row && row["average_rating"] == RatingOf(record, parseFloat)
      && "reviews_count" in row && row["reviews_count"] == CountOf(record)
      && "latitude" in row && row["latitude"] == CoordinateOf(record, "latitude", parseFloat)
      && "longitude" in row && row["longitude"] == CoordinateOf(record, "longitude", parseFloat)
  {
    var coerced := Coerced(record, parseFloat);
    assert coerced["average_rating"] == RatingOf(record, parseFloat);
    assert coerced["reviews_count"] == CountOf(record);
    assert coerced["latitude"] == CoordinateOf(record, "latitude", parseFloat);
    assert coerced["longitude"] == CoordinateOf(record, "longitude", parseFloat);
  }

  /** `Prepared` with `parseFloat` fixed, as the loop body applies it to each accepted record. */
  function Preparer(parseFloat: string -> Parsed<real>): CsvRecord -> Row
  {
    record => Prepared(record, parseFloat)
  }

  /** The batch after the first records: the accepted ones, prepared, in file order. */
  function CsvBatch(records: seq<CsvRecord>, prepare: CsvRecord -> Row): (batch: seq<Row>)
    ensures |batch| <= |records|
    decreases |records|
  {
    if |records| == 0 then []
    else
      var last := records[|records| - 1];
      CsvBatch(records[..|records| - 1], prepare) + (if Rejected(last) then [] else [prepare(last)])
  }

  /** The validation errors after the first records: one per rejected record, numbered from 1, in file order. */
  function CsvErrors(records: seq<CsvRecord>): (errors: seq<RowError>)
    ensures forall k :: 0 <= k < |errors| ==>
      && errors[k].row.Numbered? && 1 <= errors[k].row.n <= |records|
      && Rejected(records[errors[k].row.n - 1])
      && errors[k] == RowError(errors[k].row, MissingFieldMessage, Some(records[errors[k].row.n - 1]))
    ensures forall j, k :: 0 <= j < k < |errors| ==> errors[j].row.n < errors[k].row.n
    decreases |records|
  {
    if |records| == 0 then []
    else
      var last := records[|records| - 1];
      var init := records[..|records| - 1];
      var earlier := CsvErrors(init);
      assert forall k :: 0 <= k < |earlier| ==> records[earlier[k].row.n - 1] == init[earlier[k].row.n - 1];
      earlier + (if Rejected(last) then [RowError(Numbered(|records|), MissingFieldMessage, Some(last))] else [])
  }

  /** Every record is counted once: batched or reported. */
  lemma {:induction false} CsvCounts(records: seq<CsvRecord>, prepare: CsvRecord -> Row)
    ensures |CsvBatch(records, prepare)| + |CsvErrors(records)| == |records|
    decreases |records|
  {
    if |records| > 0 {
      CsvCounts(records[..|records| - 1], prepare);
    }
  }

  /** Every rejected record is reported, with its 1-based row number and its data. */
  lemma {:induction false} RejectedRowsReported(records: seq<CsvRecord>, i: nat)
    requires i < |records| && Rejected(records[i])
    ensures RowError(Numbered(i + 1), MissingFieldMessage, Some(records[i])) in CsvErrors(records)
    decreases |records|
  {
    var init := records[..|records| - 1];
    if i < |records| - 1 {
      assert init[i] == records[i];
      RejectedRowsReported(init, i);
    }
  }

  /** Every accepted record is batched. */
  lemma {:induction false} AcceptedRowsBatched(records: seq<CsvRecord>, prepare: CsvRecord -> Row, i: nat)
    requires i < |records| && !Rejected(records[i])
    ensures prepare(records[i]) in CsvBatch(records, prepare)
    decreases |records|
  {
    var n := |records| - 1;
    var init := records[..n];
    if i < n {
      assert init[i] == records[i];
      AcceptedRowsBatched(init, prepare, i);
    }
  }

  /** Every batched row is an accepted record, prepared. */
  lemma {:induction false} BatchedRowsAccepted(records: seq<CsvRecord>, prepare: CsvRecord -> Row, k: nat)
    requires k < |CsvBatch(records, prepare)|
    ensures exists i :: 0 <= i < |records| && !Rejected(records[i]) && CsvBatch(records, prepare)[k] == prepare(records[i])
    decreases |records|
  {
    var n := |records| - 1;
    var init := records[..n];
    var earlier := CsvBatch(init, prepare);
    if k < |earlier| {
      BatchedRowsAccepted(init, prepare, k);
      var i :| 0 <= i < |init| && !Rejected(init[i]) && earlier[k] == prepare(init[i]);
      assert init[i] == records[i];
    } else {
      assert CsvBatch(records, prepare)[k] == prepare(records[n]);
    }
  }

  /**
   * The `for await` loop of lines 41-61: every record is counted, rejected
   * ones are reported, accepted ones are prepared and batched.
   */
  method ProcessCsv(records: seq<CsvRecord>, parseFloat: string -> Parsed<real>)
    returns (batch: seq<Row>, errors: seq<RowError>, rowCounter: nat)
    ensures batch == CsvBatch(records, Preparer(parseFloat))
    ensures errors == CsvErrors(records)
    ensures rowCounter == |records|
  {
    var prepare := Preparer(parseFloat);
    batch, errors, rowCounter := [], [], 0;
    while rowCounter < |records|
      invariant rowCounter <= |records|
      invariant batch == CsvBatch(records[..rowCounter], prepare)
      invariant errors == CsvErrors(records[..rowCounter])
    {
      var row := records[rowCounter];
      assert records[..rowCounter + 1][..rowCounter] == records[..rowCounter];
      rowCounter := rowCounter + 1;
      if Rejected(row) {
        errors := errors + [RowError(Numbered(rowCounter), MissingFieldMessage, Some(row))];
        continue;
      }
      batch := batch + [prepare(row)];
    }
    assert records[..rowCounter] == records;
  }

  // ---------------------------------------------------------------------------
  // Bulk upload: the report

  /**
   * The uploaded file: its mimetype, and what the CSV parser and
   * `JSON.parse` make of it (only the one the mimetype selects is used).
   */
  datatype Upload = Upload(mimetype: string, records: seq<CsvRecord>, json: Outcome<Value>)

  /** The report body: `{ message, successCount, errorCount, errors }`. */
  datatype UploadReport = UploadReport(message: string, successCount: nat, errorCount: nat, errors: seq<RowError>)

  const CsvType: string := "text/csv"
  const JsonType: string := "application/json"
  const InsertFailedPrefix: string := "Database bulk insert failed: "
  const ProcessFailedPrefix: string := "Failed to process file: "
  const NotArrayMessage: string := "JSON file must contain an array of restaurant objects."

  function AsValues(rows: seq<Row>): (items: seq<Value>)
    ensures |items| == |rows|
    ensures forall i :: 0 <= i < |rows| ==> items[i] == Obj(rows[i])
  {
    seq(|rows|, i requires 0 <= i < |rows| => Obj(rows[i]))
  }

  /** The 200 report's message. */
  function ProcessedMessage(rowCounter: nat, insertedCount: nat, errorCount: nat): string
  {
    "Processed " + NatToString(rowCounter) + " rows. Successfully inserted: " + NatToString(insertedCount)
      + ". Errors: " + NatToString(errorCount) + "."
  }

  /** The 400 report's message, when nothing was batched. */
  function NothingValidMessage(errorCount: nat): string
  {
    "No valid restaurant data found in the file. Errors: " + NatToString(errorCount) + "."
  }

  /**
   * Lines 75-99 (and the catch): insert a non-empty batch and report, or
   * report that nothing was valid.  The report lists the errors it was given,
   * then one `'N/A'` entry when the insert reported an error.
   */
  function Report(batch: seq<Value>, rowCounter: nat, errors: seq<RowError>, insertAnswer: Outcome<InsertResponse>, now: Timestamp)
    : (r: Reply<UploadReport>)
    ensures |batch| == 0 ==> r == Json(400, UploadReport(NothingValidMessage(|errors|), 0, |errors|, errors))
    ensures |batch| > 0 ==>
      var inserted := RestaurantService.BulkInsertRestaurants(Arr(batch), insertAnswer, now);
      && (inserted.Threw? ==> r == Problem(500, ErrorBody("Internal Server Error", ProcessFailedPrefix + inserted.error.message, None)))
      && (inserted.Returned? ==>
            && r.Json? && r.status == 200 && r.value.successCount == inserted.value.insertedCount
            && r.value.message == ProcessedMessage(rowCounter, inserted.value.insertedCount, |r.value.errors|)
            && (inserted.value.error.None? ==> r.value.errors == errors)
            && (inserted.value.error.Some? ==>
                  r.value.errors == errors + [RowError(NotApplicable, InsertFailedPrefix + inserted.value.error.value.message, None)]))
    ensures r.Json? ==> r.value.errorCount == |r.value.errors|
  {
    if |batch| > 0 then
      match RestaurantService.BulkInsertRestaurants(Arr(batch), insertAnswer, now)
      case Threw(e) => Problem(500, ErrorBody("Internal Server Error", ProcessFailedPrefix + e.message, None))
      case Returned(result) =>
        var all := errors + if result.error.Some? then
          [RowError(NotApplicable, InsertFailedPrefix + result.error.value.message, None)] else [];
        Json(200, UploadReport(ProcessedMessage(rowCounter, result.insertedCount, |all|), result.insertedCount, |all|, all))
    else
      Json(400, UploadReport(NothingValidMessage(|errors|), 0, |errors|, errors))
  }

  /** A report keeps the order of the errors it was given. */
  lemma ReportKeepsOrder(batch: seq<Value>, rowCounter: nat, errors: seq<RowError>, insertAnswer: Outcome<InsertResponse>, now: Timestamp)
    requires forall k :: 0 <= k < |errors| ==> errors[k].row.Numbered?
    requires ErrorsInOrder(errors)
    ensures var r := Report(batch, rowCounter, errors, insertAnswer, now);
      r.Json? ==> ErrorsInOrder(r.value.errors)
  {
  }

  /**
   * `bulkUploadRestaurants(request, reply)`, given the upload, the store's
   * answer to the insert, the clock and `parseFloat`.
   */
  function BulkUpload(file: Option<Upload>, insertAnswer: Outcome<InsertResponse>, now: Timestamp, parseFloat: string -> Parsed<real>)
    : (r: Reply<UploadReport>)
    ensures file.None? ==> r == Problem(400, ErrorBody("Bad Request", "No file uploaded.", None))
    ensures file.Some? && file.value.mimetype !in {CsvType, JsonType} ==>
      r == Problem(400, ErrorBody("Bad Request", "Invalid file type. Only CSV or JSON allowed.", None))
    ensures file.Some? && file.value.mimetype == CsvType ==>
      var records := file.value.records;
      r == Report(AsValues(CsvBatch(records, Preparer(parseFloat))), |records|, CsvErrors(records), insertAnswer, now)
    ensures file.Some? && file.value.mimetype == JsonType ==>
      var json := file.value.json;
      && (json.Threw? ==>
            r == Problem(500, ErrorBody("Internal Server Error", ProcessFailedPrefix + json.error.message, None)))
      && (json.Returned? && !json.value.Arr? ==>
            r == Problem(400, ErrorBody("Bad Request", NotArrayMessage, None)))
      && (json.Returned? && json.value.Arr? ==>
            r == Report(json.value.items, |json.value.items|, [], insertAnswer, now))
    ensures r.Json? ==> r.value.errorCount == |r.value.errors|
    ensures r.Json? ==> r.status == 200 || (r.status == 400 && r.value.successCount == 0)
  {
    if file.None? then Problem(400, ErrorBody("Bad Request", "No file uploaded.", None))
    else if file.value.mimetype != CsvType && file.value.mimetype != JsonType then
      Problem(400, ErrorBody("Bad Request", "Invalid file type. Only CSV or JSON allowed.", None))
    else if file.value.mimetype == CsvType then
      var records := file.value.records;
      Report(AsValues(CsvBatch(records, Preparer(parseFloat))), |records|, CsvErrors(records), insertAnswer, now)
    else
      match file.value.json
      case Threw(e) => Problem(500, ErrorBody("Internal Server Error", ProcessFailedPrefix + e.message, None))
      case Returned(parsed) =>
        if !parsed.Arr? then
          Problem(400, ErrorBody("Bad Request", NotArrayMessage, None))
        else Report(parsed.items, |parsed.items|, [], insertAnswer, now)
  }

  /** The handler as the source runs it, with the CSV loop above. */
  method BulkUploadRestaurants(file: Option<Upload>, insertAnswer: Outcome<InsertResponse>, now: Timestamp, parseFloat: string -> Parsed<real>)
    returns (reply: Reply<UploadReport>)
    ensures reply == BulkUpload(file, insertAnswer, now, parseFloat)
  {
    if file.None? {
      return Problem(400, ErrorBody("Bad Request", "No file uploaded.", None));
    }
    var fileData := file.value;
    if fileData.mimetype != CsvType && fileData.mimetype != JsonType {
      return Problem(400, ErrorBody("Bad Request", "Invalid file type. Only CSV or JSON allowed.", None));
    }
    var restaurantsToInsert: seq<Value> := [];
    var errors: seq<RowError> := [];
    var rowCounter: nat := 0;
    if fileData.mimetype == CsvType {
      var batch;
      batch, errors, rowCounter := ProcessCsv(fileData.records, parseFloat);
      restaurantsToInsert := AsValues(batch);
    } else {
      if fileData.json.Threw? {
        return Problem(500, ErrorBody("Internal Server Error", ProcessFailedPrefix + fileData.json.error.message, None));
      }
      var jsonData := fileData.json.value;
      if !jsonData.Arr? {
        return Problem(400, ErrorBody("Bad Request", NotArrayMessage, None));
      }
      restaurantsToInsert := jsonData.items;
      rowCounter := |restaurantsToInsert|;
    }
    reply := Report(restaurantsToInsert, rowCounter, errors, insertAnswer, now);
  }

  /** Validation errors first, by increasing row number, and at most one `'N/A'` entry, last. */
  predicate ErrorsInOrder(errors: seq<RowError>)
  {
    && (forall k :: 0 <= k < |errors| - 1 ==> errors[k].row.Numbered?)
    && (forall j, k :: 0 <= j < k < |errors| && errors[j].row.Numbered? && errors[k].row.Numbered? ==>
          errors[j].row.n < errors[k].row.n)
  }

  /** A report's errors are always in order. */
  lemma UploadErrorsInOrder(file: Option<Upload>, insertAnswer: Outcome<InsertResponse>, now: Timestamp, parseFloat: string -> Parsed<real>)
    requires BulkUpload(file, insertAnswer, now, parseFloat).Json?
    ensures ErrorsInOrder(BulkUpload(file, insertAnswer, now, parseFloat).value.errors)
  {
    var records := file.value.records;
    if file.value.mimetype == CsvType {
      var batch := AsValues(CsvBatch(records, Preparer(parseFloat)));
      ReportKeepsOrder(batch, |records|, CsvErrors(records), insertAnswer, now);
    } else {
      var items := file.value.json.value.items;
      ReportKeepsOrder(items, |items|, [], insertAnswer, now);
    }
  }

  /** Inserting a batch of objects never throws: only a nullish element can make the projection fail. */
  lemma InsertOfObjects(rows: seq<Row>, insertAnswer: Outcome<InsertResponse>, now: Timestamp)
    ensures RestaurantService.BulkInsertRestaurants(Arr(AsValues(rows)), insertAnswer, now).Returned?
  {
    var batch := AsValues(rows);
    assert forall i :: 0 <= i < |batch| ==> !Nullish(batch[i]);
  }

  /**
   * A CSV upload is always answered with a report.  It is 200 exactly when
   * some record was accepted; then it counts every record and the batch
   * holds the records not rejected, otherwise it is 400 with exactly the
   * validation errors.  The errors begin with the validation errors.
   */
  lemma CsvUploadReport(file: Option<Upload>, insertAnswer: Outcome<InsertResponse>, now: Timestamp, parseFloat: string -> Parsed<real>)
    requires file.Some? && file.value.mimetype == CsvType
    ensures var r := BulkUpload(file, insertAnswer, now, parseFloat);
      var records := file.value.records;
      var validation := CsvErrors(records);
      && r.Json?
      && (r.status == 200 <==> exists i :: 0 <= i < |records| && !Rejected(records[i]))
      && |validation| <= |r.value.errors| <= |validation| + 1
      && r.value.errors[..|validation|] == validation
      && |CsvBatch(records, Preparer(parseFloat))| == |records| - |validation|
      && (r.status == 200 ==>
            r.value.message == ProcessedMessage(|records|, r.value.successCount, |r.value.errors|))
      && (r.status != 200 ==>
            r == Json(400, UploadReport(NothingValidMessage(|validation|), 0, |validation|, validation)))
  {
    var records := file.value.records;
    var prepare := Preparer(parseFloat);
    var rows := CsvBatch(records, prepare);
    var validation := CsvErrors(records);
    CsvCounts(records, prepare);
    InsertOfObjects(rows, insertAnswer, now);
    var r := Report(AsValues(rows), |records|, validation, insertAnswer, now);
    assert BulkUpload(file, insertAnswer, now, parseFloat) == r;
    if exists i :: 0 <= i < |records| && !Rejected(records[i]) {
      var i :| 0 <= i < |records| && !Rejected(records[i]);
      AcceptedRowsBatched(records, prepare, i);
    }
    if |rows| > 0 {
      BatchedRowsAccepted(records, prepare, 0);
    }
  }

  /** The projection of a batch throws the TypeError of its first `null` element. */
  lemma InsertThrowsAtNull(items: seq<Value>, insertAnswer: Outcome<InsertResponse>, now: Timestamp, i: nat)
    requires i < |items| && items[i] == Null && forall j :: 0 <= j < i ==> !Nullish(items[j])
    ensures RestaurantService.BulkInsertRestaurants(Arr(items), insertAnswer, now) == Threw(ReadError(Null, "id"))
  {
    var out := RestaurantService.Projections(items, now);
    assert out.Threw?;
    var k :| 0 <= k < |items| && Nullish(items[k]) && out.error == ReadError(items[k], "id")
      && forall j :: 0 <= j < k ==> !Nullish(items[j]);
    assert k == i;
  }

  /**
   * A JSON array is batched unvalidated: the first `null` element makes the
   * projection throw, which the handler answers with 500.
   */
  lemma JsonNullElement(file: Option<Upload>, insertAnswer: Outcome<InsertResponse>, now: Timestamp, parseFloat: string -> Parsed<real>, i: nat)
    requires file.Some? && file.value.mimetype == JsonType && file.value.json.Returned? && file.value.json.value.Arr?
    requires var items := file.value.json.value.items;
      i < |items| && items[i] == Null && forall j :: 0 <= j < i ==> !Nullish(items[j])
    ensures BulkUpload(file, insertAnswer, now, parseFloat) ==
      Problem(500, ErrorBody("Internal Server Error", ProcessFailedPrefix + ReadError(Null, "id").message, None))
  {
    var items := file.value.json.value.items;
    InsertThrowsAtNull(items, insertAnswer, now, i);
    assert BulkUpload(file, insertAnswer, now, parseFloat) == Report(items, |items|, [], insertAnswer, now);
  }

  // ---------------------------------------------------------------------------
  // Restaurant listing with categories

  /** The category names of the rows whose `restaurant_id` is `id`, in row order. */
  function NamesFor(rows: seq<Row>, id: Value): (names: seq<Value>)
    ensures |names| <= |rows|
    decreases |rows|
  {
    if |rows| == 0 then []
    else
      var last := rows[|rows| - 1];
      NamesFor(rows[..|rows| - 1], id) + (if Get(last, "restaurant_id") == id then [Get(last, "category_name")] else [])
  }

  /** A name is listed for a restaurant exactly when some category row pairs the two. */
  lemma NamesForRows(rows: seq<Row>, id: Value, name: Value)
    ensures name in NamesFor(rows, id) <==>
      exists i :: 0 <= i < |rows| && Get(rows[i], "restaurant_id") == id && Get(rows[i], "category_name") == name
  {
    if name in NamesFor(rows, id) {
      var i := NamesForSource(rows, id, name);
    }
    if exists i :: 0 <= i < |rows| && Get(rows[i], "restaurant_id") == id && Get(rows[i], "category_name") == name {
      var i :| 0 <= i < |rows| && Get(rows[i], "restaurant_id") == id && Get(rows[i], "category_name") == name;
      NamesForListed(rows, id, i);
    }
  }

  /** Every listed name comes from a row of that restaurant. */
  lemma {:induction false} NamesForSource(rows: seq<Row>, id: Value, name: Value) returns (i: nat)
    requires name in NamesFor(rows, id)
    ensures i < |rows| && Get(rows[i], "restaurant_id") == id && Get(rows[i], "category_name") == name
    decreases |rows|
  {
    var n := |rows| - 1;
    if name in NamesFor(rows[..n], id) {
      i := NamesForSource(rows[..n], id, name);
      assert rows[..n][i] == rows[i];
    } else {
      i := n;
    }
  }

  /** Every row of that restaurant has its name listed. */
  lemma {:induction false} NamesForListed(rows: seq<Row>, id: Value, i: nat)
    requires i < |rows| && Get(rows[i], "restaurant_id") == id
    ensures Get(rows[i], "category_name") in NamesFor(rows, id)
    decreases |rows|
  {
    var n := |rows| - 1;
    if i < n {
      assert rows[..n][i] == rows[i];
      NamesForListed(rows[..n], id, i);
    }
  }

  /**
   * The grouping loop of lines 122-125: a dictionary from `restaurant_id` to
   * the names of its category rows, with a key only for ids that occur.
   */
  method GroupCategories(rows: seq<Row>) returns (groups: map<Value, seq<Value>>)
    ensures forall id :: id in groups <==> NamesFor(rows, id) != []
    ensures forall id :: id in groups ==> groups[id] == NamesFor(rows, id)
  {
    groups := map[];
    for i := 0 to |rows|
      invariant forall id :: id in groups <==> NamesFor(rows[..i], id) != []
      invariant forall id :: id in groups ==> groups[id] == NamesFor(rows[..i], id)
    {
      var row := rows[i];
      var id := Get(row, "restaurant_id");
      ghost var before := groups;
      if id !in groups {
        groups := groups[id := []];
      }
      groups := groups[id := groups[id] + [Get(row, "category_name")]];
      forall other
        ensures other in groups <==> NamesFor(rows[..i + 1], other) != []
        ensures other in groups ==> groups[other] == NamesFor(rows[..i + 1], other)
      {
        NamesForExtended(rows, i, other);
        if other != id {
          assert (other in groups) == (other in before);
        }
      }
    }
    assert rows[..|rows|] == rows;
  }

  /** One more row adds its name to its own restaurant's list and changes no other list. */
  lemma NamesForExtended(rows: seq<Row>, i: nat, id: Value)
    requires i < |rows|
    ensures NamesFor(rows[..i + 1], id) == NamesFor(rows[..i], id)
      + (if Get(rows[i], "restaurant_id") == id then [Get(rows[i], "category_name")] else [])
  {
    assert rows[..i + 1][..i] == rows[..i];
    assert rows[..i + 1][i] == rows[i];
  }

  /** The category rows the handler groups: none when the query reported an error or gave no array. */
  function CategoryRows(resp: ListResponse): (rows: seq<Row>)
    ensures resp.error.Some? || !resp.data.Rows? ==> rows == []
    ensures resp.error.None? && resp.data.Rows? ==> rows == resp.data.rows
  {
    if resp.error.None? && resp.data.Rows? then resp.data.rows else []
  }

  /** `{ ...r, categories }`: the record with its `categories` set. */
  function WithCategories(r: Row, names: seq<Value>): (entry: Row)
    ensures entry.Keys == r.Keys + {"categories"}
    ensures entry["categories"] == Arr(names)
    ensures forall k :: k in r && k != "categories" ==> entry[k] == r[k]
  {
    r["categories" := Arr(names)]
  }

  function InternalError<T>(e: Error): Reply<T>
  {
    Problem(500, ErrorBody("Internal Server Error", e.message, None))
  }

  /**
   * `listRestaurants`, given what `getAllRestaurants()` resolved to (called
   * without coordinates) and the store's answer to the category query: each
   * listed restaurant with its category names.
   */
  function ListRestaurantsReply(restaurants: Outcome<seq<Row>>, categoriesAnswer: Outcome<ListResponse>)
    : (reply: Reply<seq<Row>>)
    ensures reply.Json? <==> restaurants.Returned? && categoriesAnswer.Returned?
    ensures reply.Json? ==>
      && reply.status == 200 && |reply.value| == |restaurants.value|
      && forall i :: 0 <= i < |restaurants.value| ==>
           reply.value[i] == WithCategories(restaurants.value[i],
             NamesFor(CategoryRows(categoriesAnswer.value), Get(restaurants.value[i], "id")))
    ensures !reply.Json? ==> StatusOf(reply) == 500
  {
    match restaurants
    case Threw(e) => InternalError(e)
    case Returned(list) =>
      match categoriesAnswer
      case Threw(e) => InternalError(e)
      case Returned(resp) =>
        var rows := CategoryRows(resp);
        Json(200, seq(|list|, i requires 0 <= i < |list| => WithCategories(list[i], NamesFor(rows, Get(list[i], "id")))))
  }

  /** What the listing service resolves to holds JSON projections only. */
  lemma ListingRows(listAnswer: Outcome<ListResponse>, now: Timestamp)
    requires RestaurantService.GetAllRestaurants(listAnswer, now).Returned?
    ensures forall r :: r in RestaurantService.GetAllRestaurants(listAnswer, now).value ==> r.Keys == RestaurantModel.JsonKeys
  {
  }

  /**
   * Each listed entry is the restaurant's JSON projection, in listing order,
   * with `categories` added: the names of its category rows, or none when the
   * category query reported an error.
   */
  lemma ListedEntries(list: seq<Row>, resp: ListResponse, i: nat)
    requires forall r :: r in list ==> r.Keys == RestaurantModel.JsonKeys
    requires i < |list|
    ensures var reply := ListRestaurantsReply(Returned(list), Returned(resp));
      && reply.Json? && i < |reply.value|
      && reply.value[i].Keys == RestaurantModel.JsonKeys + {"categories"}
      && (forall k :: k in RestaurantModel.JsonKeys ==> reply.value[i][k] == list[i][k])
      && (forall name :: name in reply.value[i]["categories"].items <==>
            exists j :: 0 <= j < |CategoryRows(resp)| && Get(CategoryRows(resp)[j], "restaurant_id") == Get(list[i], "id")
              && Get(CategoryRows(resp)[j], "category_name") == name)
      && (resp.error.Some? ==> reply.value[i]["categories"] == Arr([]))
  {
    var rows := CategoryRows(resp);
    var names := NamesFor(rows, Get(list[i], "id"));
    var reply := ListRestaurantsReply(Returned(list), Returned(resp));
    assert reply.value[i] == WithCategories(list[i], names);
    assert list[i] in list;
    assert "categories" !in RestaurantModel.JsonKeys;
    forall name
      ensures name in names <==>
        exists j :: 0 <= j < |rows| && Get(rows[j], "restaurant_id") == Get(list[i], "id") && Get(rows[j], "category_name") == name
    {
      NamesForRows(rows, Get(list[i], "id"), name);
    }
  }

  /** The handler as the source runs it, with the grouping loop. */
  method ListRestaurants(restaurants: Outcome<seq<Row>>, categoriesAnswer: Outcome<ListResponse>)
    returns (reply: Reply<seq<Row>>)
    ensures reply == ListRestaurantsReply(restaurants, categoriesAnswer)
  {
    if restaurants.Threw? {
      return InternalError(restaurants.error);
    }
    if categoriesAnswer.Threw? {
      return InternalError(categoriesAnswer.error);
    }
    var resp := categoriesAnswer.value;
    var categoriesMap: map<Value, seq<Value>> := map[];
    if resp.error.None? && resp.data.Rows? {
      categoriesMap := GroupCategories(resp.data.rows);
    }
    assert forall id :: id in categoriesMap ==> categoriesMap[id] == NamesFor(CategoryRows(resp), id);
    assert forall id :: id !in categoriesMap ==> NamesFor(CategoryRows(resp), id) == [];
    var list := restaurants.value;
    var response := seq(|list|, i requires 0 <= i < |list| =>
      var id := Get(list[i], "id");
      WithCategories(list[i], if id in categoriesMap then categoriesMap[id] else []));
    var expected := ListRestaurantsReply(restaurants, categoriesAnswer);
    assert forall i :: 0 <= i < |list| ==> response[i] == expected.value[i];
    assert response == expected.value;
    reply := Json(200, response);
  }

  // ---------------------------------------------------------------------------
  // Single-restaurant handlers

  /**
   * The catch of the create and update handlers: 400 when the message
   * mentions "validation" (case-sensitively), 500 otherwise.
   */
  function ChangeFailed<T>(title: string, e: Error): (reply: Reply<T>)
    ensures reply.Problem? && reply.body == ErrorBody(title, e.message, None)
    ensures reply.status == 400 <==> Includes(e.message, "validation")
    ensures reply.status == 400 || reply.status == 500
  {
    Problem(if Includes(e.message, "validation") then 400 else 500, ErrorBody(title, e.message, None))
  }

  /** The error a single-row store call failed with: the rejection, or the response's `error`. */
  function SingleFailure(answer: Outcome<SingleResponse>): (e: Error)
    requires answer.Threw? || answer.value.error.Some?
    ensures answer.Threw? ==> e == answer.error
    ensures answer.Returned? ==> Some(e) == answer.value.error
  {
    if answer.Threw? then answer.error else answer.value.error.value
  }

  /** `createRestaurant`: 201 with what the service built, or the catch's 400/500. */
  function CreateRestaurantReply(answer: Outcome<SingleResponse>, now: Timestamp)
    : (reply: Reply<Option<RestaurantModel.Restaurant>>)
    ensures reply.Json? <==> answer.Returned? && answer.value.error.None?
    ensures reply.Json? ==>
      && reply.status == 201
      && reply.value == (if answer.value.data.Some? then Some(RestaurantModel.New(answer.value.data.value, now)) else None)
    ensures !reply.Json? ==>
      && reply.Problem?
      && reply.body == ErrorBody("Error Creating Restaurant", RestaurantService.CreateFailedPrefix + SingleFailure(answer).message, None)
      && (reply.status == 400 || reply.status == 500)
  {
    match RestaurantService.CreateRestaurant(answer, now)
    case Threw(e) => ChangeFailed("Error Creating Restaurant", e)
    case Returned(created) => Json(201, created)
  }

  /**
   * A failed create is answered with 400 exactly when the store's own
   * message mentions "validation": the service's prefix cannot supply it.
   */
  lemma CreateValidationIs400(answer: Outcome<SingleResponse>, now: Timestamp)
    requires answer.Threw? || answer.value.error.Some?
    ensures StatusOf(CreateRestaurantReply(answer, now)) == 400 <==> Includes(SingleFailure(answer).message, "validation")
  {
    var m := SingleFailure(answer).message;
    assert RestaurantService.CreateFailedPrefix == "Database error creating restaurant:" + " ";
    MentionAfterPrefix("Database error creating restaurant:", m, "validation");
  }

  /** `categoriesData.map(c => c.category_name)`: each row's name, in row order. */
  function CategoryNames(rows: seq<Row>): (names: seq<Value>)
    ensures |names| == |rows|
    ensures forall i :: 0 <= i < |rows| ==> names[i] == Get(rows[i], "category_name")
  {
    seq(|rows|, i requires 0 <= i < |rows| => Get(rows[i], "category_name"))
  }

  /** A restaurant's JSON projection with its category names, as the get and update handlers send it. */
  function WithNames(r: RestaurantModel.Restaurant, categoriesAnswer: Outcome<ListResponse>): (entry: Row)
    requires categoriesAnswer.Returned?
    ensures entry.Keys == RestaurantModel.JsonKeys + {"categories"}
    ensures forall k :: k in RestaurantModel.JsonKeys ==> entry[k] == RestaurantModel.ToJson(r)[k]
    ensures entry["categories"] == Arr(CategoryNames(CategoryRows(categoriesAnswer.value)))
  {
    assert "categories" !in RestaurantModel.JsonKeys;
    WithCategories(RestaurantModel.ToJson(r), CategoryNames(CategoryRows(categoriesAnswer.value)))
  }

  /**
   * `getRestaurant`: 404 when nothing matched, otherwise the restaurant with
   * the names of the category rows the store returned for it.
   */
  function GetRestaurantReply(answer: Outcome<SingleResponse>, categoriesAnswer: Outcome<ListResponse>, now: Timestamp)
    : (reply: Reply<Row>)
    ensures reply.Json? <==>
      answer.Returned? && answer.value.error.None? && answer.value.data.Some? && categoriesAnswer.Returned?
    ensures reply.Json? ==>
      reply == Json(200, WithNames(RestaurantModel.New(answer.value.data.value, now), categoriesAnswer))
    ensures StatusOf(reply) == 404 <==> answer.Returned? && answer.value.error.None? && answer.value.data.None?
    ensures StatusOf(reply) == 404 ==> reply == Problem(404, ErrorBody("Not Found", "Restaurant not found", None))
    ensures StatusOf(reply) in {200, 404, 500}
    ensures answer.Threw? || answer.value.error.Some? ==>
      reply == Problem(500, ErrorBody("Internal Server Error",
        RestaurantService.FindFailedPrefix + SingleFailure(answer).message, None))
  {
    match RestaurantService.FindRestaurantById(answer, now)
    case Threw(e) => InternalError(e)
    case Returned(found) =>
      if found.None? then Problem(404, ErrorBody("Not Found", "Restaurant not found", None))
      else if categoriesAnswer.Threw? then InternalError(categoriesAnswer.error)
      else Json(200, WithNames(found.value, categoriesAnswer))
  }

  /** The category rows of one restaurant, in row order: what `.eq('restaurant_id', id)` selects. */
  function RowsFor(rows: seq<Row>, id: Value): (selected: seq<Row>)
    ensures |selected| <= |rows|
    ensures forall r :: r in selected ==> r in rows && Get(r, "restaurant_id") == id
    decreases |rows|
  {
    if |rows| == 0 then []
    else
      var last := rows[|rows| - 1];
      RowsFor(rows[..|rows| - 1], id) + (if Get(last, "restaurant_id") == id then [last] else [])
  }

  /**
   * The names the get handler shows for a restaurant, when the store selects
   * its rows from the whole category table, are the names the listing
   * groups under its id.
   */
  lemma {:induction false} GetAgreesWithListing(rows: seq<Row>, id: Value)
    ensures CategoryNames(RowsFor(rows, id)) == NamesFor(rows, id)
    decreases |rows|
  {
    if |rows| > 0 {
      var init := rows[..|rows| - 1];
      var last := rows[|rows| - 1];
      GetAgreesWithListing(init, id);
      var tail: seq<Row> := if Get(last, "restaurant_id") == id then [last] else [];
      assert RowsFor(rows, id) == RowsFor(init, id) + tail;
      CategoryNamesAppend(RowsFor(init, id), tail);
    }
  }

  lemma CategoryNamesAppend(a: seq<Row>, b: seq<Row>)
    ensures CategoryNames(a + b) == CategoryNames(a) + CategoryNames(b)
  {
    var x := CategoryNames(a + b);
    var y := CategoryNames(a) + CategoryNames(b);
    forall i | 0 <= i < |x|
      ensures x[i] == y[i]
    {
      if i < |a| {
        assert (a + b)[i] == a[i];
      } else {
        assert (a + b)[i] == b[i - |a|];
      }
    }
  }

  /**
   * `updateRestaurant`, given the service's result: 404 when nothing was
   * updated, otherwise the restaurant with its category names; any failure,
   * the category query's included, goes to the catch.
   */
  function UpdateRestaurantReply(
    updated: Outcome<Option<RestaurantModel.Restaurant>>, categoriesAnswer: Outcome<ListResponse>)
    : (reply: Reply<Row>)
    ensures reply.Json? <==> updated.Returned? && updated.value.Some? && categoriesAnswer.Returned?
    ensures reply.Json? ==> reply == Json(200, WithNames(updated.value.value, categoriesAnswer))
    ensures StatusOf(reply) == 404 <==> updated == Returned(None)
    ensures StatusOf(reply) == 404 ==>
      reply == Problem(404, ErrorBody("Not Found", "Restaurant not found or no changes made", None))
    ensures updated.Threw? ==> reply == ChangeFailed("Error Updating Restaurant", updated.error)
    ensures StatusOf(reply) in {200, 400, 404, 500}
  {
    match updated
    case Threw(e) => ChangeFailed("Error Updating Restaurant", e)
    case Returned(found) =>
      if found.None? then Problem(404, ErrorBody("Not Found", "Restaurant not found or no changes made", None))
      else if categoriesAnswer.Threw? then ChangeFailed("Error Updating Restaurant", categoriesAnswer.error)
      else Json(200, WithNames(found.value, categoriesAnswer))
  }

  /** Both services' "nothing to update" message has no lower-case "n", so it never mentions "validation". */
  lemma NoFieldsIsNotValidation()
    ensures !Includes(RestaurantService.NoFieldsMessage, "validation")
    ensures !Includes(DealService.NoFieldsMessage, "validation")
  {
    assert DealService.NoFieldsMessage == RestaurantService.NoFieldsMessage;
    assert 'n' !in RestaurantService.NoFieldsMessage;
    NotIncludesWithoutChar(RestaurantService.NoFieldsMessage, "validation", 9);
  }

  /** An update with nothing to update is answered with 500: its message has no lower-case "n". */
  lemma EmptyUpdateIs500(
    id: string, fields: Row,
    updateAnswer: Outcome<SingleResponse>, fetchAnswer: Outcome<SingleResponse>,
    replaceAnswer: Outcome<()>, categoriesAnswer: Outcome<ListResponse>, now: Timestamp)
    requires fields.Keys <= {"id", "created_at"}
    ensures UpdateRestaurantReply(
      RestaurantService.UpdateOutcome(id, fields, updateAnswer, fetchAnswer, replaceAnswer, now).result, categoriesAnswer)
      == Problem(500, ErrorBody("Error Updating Restaurant", RestaurantService.NoFieldsMessage, None))
  {
    RestaurantService.UpdateNothingToDo(id, fields, updateAnswer, fetchAnswer, replaceAnswer, now);
    NoFieldsIsNotValidation();
  }

  /** `deleteRestaurant`: 204 when a row went, 404 when none did, 500 on failure. */
  function DeleteRestaurantReply(id: string, answer: Outcome<CountResponse>): (reply: Reply<()>)
    ensures reply.NoContent? <==> answer.Returned? && answer.value.error.None? && answer.value.count.Some? && answer.value.count.value > 0
    ensures StatusOf(reply) == 404 <==>
      answer.Returned? && answer.value.error.None? && (answer.value.count.None? || answer.value.count.value <= 0)
    ensures StatusOf(reply) == 404 ==>
      reply == Problem(404, ErrorBody("Not Found", "Restaurant not found or already deleted", None))
    ensures answer.Threw? ==> reply == InternalError(RestaurantService.DeleteError(id, answer.error))
    ensures answer.Returned? && answer.value.error.Some? ==>
      reply == InternalError(RestaurantService.DeleteError(id, answer.value.error.value))
    ensures StatusOf(reply) in {204, 404, 500}
  {
    match RestaurantService.DeleteRestaurant(id, answer)
    case Threw(e) => InternalError(e)
    case Returned(success) =>
      if !success then Problem(404, ErrorBody("Not Found", "Restaurant not found or already deleted", None))
      else NoContent
  }

  /** A restaurant still referenced by deals or categories is answered with 500, naming it. */
  lemma DeleteReferencedIs500(id: string, e: Error)
    requires e.code == Some(ForeignKeyViolation)
    ensures DeleteRestaurantReply(id, Threw(e)) == Problem(500, ErrorBody("Internal Server Error",
      "Cannot delete restaurant " + id + " because it still has associated deals or categories.", None))
  {
  }

  // ---------------------------------------------------------------------------
  // Deal handlers

  /** `listDeals`: the deals the service built, or 500. */
  function ListDealsReply(answer: Outcome<ListResponse>, now: Timestamp): (reply: Reply<seq<DealModel.Deal>>)
    ensures reply.Json? <==> answer.Returned? && answer.value.error.None? && !answer.value.data.NotArray?
    ensures reply.Json? ==> reply.status == 200 && reply.value == (match answer.value.data
      case Rows(rows) => seq(|rows|, i requires 0 <= i < |rows| => DealModel.New(rows[i], now))
      case _ => [])
    ensures answer.Returned? && answer.value.error.None? && answer.value.data.NotArray? ==>
      reply == InternalError(DealService.MapNotAFunction)
    ensures StatusOf(reply) in {200, 500}
  {
    match DealService.ListAllDeals(answer, now)
    case Threw(e) => InternalError(e)
    case Returned(deals) => Json(200, deals)
  }

  /** `createDeal`: 201 with what the service built, or the catch's 400/500. */
  function CreateDealReply(dealData: Row, answer: Outcome<SingleResponse>, now: Timestamp, formatNumber: real -> string)
    : (reply: Reply<Option<DealModel.Deal>>)
    ensures reply.Json? <==> DealService.CreateDeal(dealData, answer, now, formatNumber).result.Returned?
    ensures reply.Json? ==> reply == Json(201, DealService.CreateDeal(dealData, answer, now, formatNumber).result.value)
    ensures !reply.Json? ==>
      reply == ChangeFailed("Error Creating Deal", DealService.CreateDeal(dealData, answer, now, formatNumber).result.error)
  {
    match DealService.CreateDeal(dealData, answer, now, formatNumber).result
    case Threw(e) => ChangeFailed("Error Creating Deal", e)
    case Returned(created) => Json(201, created)
  }

  /**
   * An incomplete deal is refused before the store is called, and answered
   * with 500: the service's message says "Validation", the handler looks
   * for "validation".
   */
  lemma InvalidDealIs500(dealData: Row, answer: Outcome<SingleResponse>, now: Timestamp, formatNumber: real -> string)
    requires !Truthy(DealModel.IsValid(DealModel.New(dealData, now)))
    ensures DealService.CreateDeal(dealData, answer, now, formatNumber).calls == []
    ensures CreateDealReply(dealData, answer, now, formatNumber)
      == Problem(500, ErrorBody("Error Creating Deal", DealService.ValidationMessage, None))
  {
    DealService.ValidationMessageIsCapitalised();
  }

  /** The catch as evidently intended: a validation failure is the client's, whatever its capitalisation. */
  function ChangeFailedIntended<T>(title: string, e: Error): (reply: Reply<T>)
    ensures reply.Problem? && reply.body == ErrorBody(title, e.message, None)
    ensures reply.status == 400 <==> Includes(Lower(e.message), "validation")
  {
    Problem(if Includes(Lower(e.message), "validation") then 400 else 500, ErrorBody(title, e.message, None))
  }

  /** `createDeal` with the intended catch. */
  function CreateDealReplyIntended(dealData: Row, answer: Outcome<SingleResponse>, now: Timestamp, formatNumber: real -> string)
    : (reply: Reply<Option<DealModel.Deal>>)
    ensures reply.Json? <==> DealService.CreateDeal(dealData, answer, now, formatNumber).result.Returned?
    ensures reply.Json? ==> reply == CreateDealReply(dealData, answer, now, formatNumber)
  {
    match DealService.CreateDeal(dealData, answer, now, formatNumber).result
    case Threw(e) => ChangeFailedIntended("Error Creating Deal", e)
    case Returned(created) => Json(201, created)
  }

  lemma LowerCapitalWord()
    ensures Lower("Validation") == "validation"
  {
    var word := "Validation";
    assert word == ['V'] + "alidation";
    assert ('V' - 'A') + 'a' == 'v';
    assert forall i :: 1 <= i < 10 ==> !('A' <= word[i] <= 'Z');
  }

  /** Lower-cased, a message that begins with "Validation" mentions "validation". */
  lemma LoweredMention(rest: string)
    ensures Includes(Lower("Validation" + rest), "validation")
  {
    LowerPrefix("Validation", rest);
    LowerCapitalWord();
    IncludesAt(Lower("Validation" + rest), "validation", 0);
  }

  /** Lower-cased, the deal service's validation message mentions "validation". */
  lemma LoweredValidationMessage()
    ensures Includes(Lower(DealService.ValidationMessage), "validation")
  {
    var message := DealService.ValidationMessage;
    DealService.ValidationMessageBegins();
    assert message == message[..10] + message[10..];
    LoweredMention(message[10..]);
  }

  /** With the intended catch an incomplete deal is answered with 400. */
  lemma InvalidDealIntended(dealData: Row, answer: Outcome<SingleResponse>, now: Timestamp, formatNumber: real -> string)
    requires !Truthy(DealModel.IsValid(DealModel.New(dealData, now)))
    ensures CreateDealReplyIntended(dealData, answer, now, formatNumber)
      == Problem(400, ErrorBody("Error Creating Deal", DealService.ValidationMessage, None))
  {
    LoweredValidationMessage();
  }

  /** `getDeal`: the deal, 404 when nothing matched, 500 on failure. */
  function GetDealReply(answer: Outcome<SingleResponse>, now: Timestamp): (reply: Reply<DealModel.Deal>)
    ensures reply.Json? <==> answer.Returned? && answer.value.error.None? && answer.value.data.Some?
    ensures reply.Json? ==> reply == Json(200, DealModel.New(answer.value.data.value, now))
    ensures StatusOf(reply) == 404 <==> answer.Returned? && answer.value.error.None? && answer.value.data.None?
    ensures StatusOf(reply) == 404 ==> reply == Problem(404, ErrorBody("Not Found", "Deal not found", None))
    ensures answer.Threw? || answer.value.error.Some? ==>
      reply == InternalError(Error("Database error finding deal: " + SingleFailure(answer).message, None))
  {
    match DealService.FindDealById(answer, now)
    case Threw(e) => InternalError(e)
    case Returned(found) =>
      if found.None? then Problem(404, ErrorBody("Not Found", "Deal not found", None))
      else Json(200, found.value)
  }

  /** `updateDeal`: the updated deal, 404 when nothing was updated, or the catch's 400/500. */
  function UpdateDealReply(id: string, fields: Row, answer: Outcome<SingleResponse>, now: Timestamp, formatNumber: real -> string)
    : (reply: Reply<DealModel.Deal>)
    ensures var out := DealService.UpdateDealOutcome(id, fields, answer, now, formatNumber).result;
      && (reply.Json? <==> out.Returned? && out.value.Some?)
      && (reply.Json? ==> reply == Json(200, out.value.value))
      && (StatusOf(reply) == 404 <==> out == Returned(None))
      && (StatusOf(reply) == 404 ==> reply == Problem(404, ErrorBody("Not Found", "Deal not found or no changes made", None)))
      && (out.Threw? ==> reply == ChangeFailed("Error Updating Deal", out.error))
  {
    match DealService.UpdateDealOutcome(id, fields, answer, now, formatNumber).result
    case Threw(e) => ChangeFailed("Error Updating Deal", e)
    case Returned(found) =>
      if found.None? then Problem(404, ErrorBody("Not Found", "Deal not found or no changes made", None))
      else Json(200, found.value)
  }

  /** An update of a deal with nothing to update is answered with 500 and calls nothing. */
  lemma EmptyDealUpdateIs500(id: string, fields: Row, answer: Outcome<SingleResponse>, now: Timestamp, formatNumber: real -> string)
    requires fields.Keys <= {"id", "created_at"}
    ensures DealService.UpdateDealOutcome(id, fields, answer, now, formatNumber).calls == []
    ensures UpdateDealReply(id, fields, answer, now, formatNumber)
      == Problem(500, ErrorBody("Error Updating Deal", DealService.NoFieldsMessage, None))
  {
    DealService.UpdateDealSends(id, fields, answer, now, formatNumber);
    NoFieldsIsNotValidation();
  }

  /** `deleteDeal`: 204 when a row went, 404 when none did, 500 on failure. */
  function DeleteDealReply(answer: Outcome<CountResponse>): (reply: Reply<()>)
    ensures reply.NoContent? <==> answer.Returned? && answer.value.error.None? && answer.value.count.Some? && answer.value.count.value > 0
    ensures StatusOf(reply) == 404 <==>
      answer.Returned? && answer.value.error.None? && (answer.value.count.None? || answer.value.count.value <= 0)
    ensures StatusOf(reply) == 404 ==>
      reply == Problem(404, ErrorBody("Not Found", "Deal not found or already deleted", None))
    ensures StatusOf(reply) in {204, 404, 500}
  {
    match DealService.DeleteDeal(answer)
    case Threw(e) => InternalError(e)
    case Returned(success) =>
      if !success then Problem(404, ErrorBody("Not Found", "Deal not found or already deleted", None))
      else NoContent
  }
}
