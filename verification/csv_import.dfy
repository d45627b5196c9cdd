/**
  * The conversion of one row of `subscriptions.csv` into the Firestore document
  * that `_add_csv_to_firestore` writes (subscription.py:43-59). A row is the
  * dictionary `csv.DictReader` yields: column name to cell text.
  */
module CsvImport {
  import opened Wrappers
  import opened Json
  import opened Text
  import opened Dates
  import opened Availability
  import opened Subscriptions

  type Row = map<string, string>

  /** Why a row cannot be converted: a column missing from the header (KeyError), a date
      `strptime` rejects, or a cell `int` rejects (ValueError). */
  datatype ImportError =
    | MissingColumn(column: string)
    | BadDate(column: string, error: DateError)
    | BadInteger(column: string, text: string)

  /** A converted row: the document id and the document. */
  datatype Document = Document(id: Id, record: Record)

  /** `int(t)`: an optional sign followed by ASCII digits. */
  function ParseInt(t: string): Option<int> {
    if |t| > 0 && (t[0] == '-' || t[0] == '+') then
      var digits := t[1..];
      if |digits| > 0 && AllDigits(digits) then
        var magnitude: int := DigitsValue(digits);
        Some(if t[0] == '-' then -magnitude else magnitude)
      else None
    else if |t| > 0 && AllDigits(t) then Some(DigitsValue(t))
    else None
  }

  /** `str(n)`. */
  function IntText(n: int): string {
    if n < 0 then "-" + Decimal(-n) else Decimal(n)
  }

  /** Reading back what `str` wrote gives the same integer. */
  lemma ParseIntText(n: int)
    ensures ParseInt(IntText(n)) == Some(n)
  {
    if n < 0 {
      DecimalValue(-n);
      assert ("-" + Decimal(-n))[1..] == Decimal(-n);
    } else {
      DecimalValue(n);
      assert IsDigit(Decimal(n)[0]);
    }
  }

  /** The error names what is wrong with the row: the missing column, or the cell and what
      its parser said about it. */
  predicate Explains(row: Row, e: ImportError) {
    match e
    case MissingColumn(c) => c !in row
    case BadDate(c, err) => c in row && ParseDmy(row[c]) == Failure(err)
    case BadInteger(c, t) => c in row && row[c] == t && ParseInt(t).None?
  }

  /** `row[column]`. */
  function Column(row: Row, column: string): (r: Result<string, ImportError>)
    ensures r.Success? <==> column in row
    ensures r.Success? ==> r.value == row[column]
    ensures r.Failure? ==> r.error == MissingColumn(column) && Explains(row, r.error)
  {
    if column in row then Success(row[column]) else Failure(MissingColumn(column))
  }

  /** `datetime.strptime(row[column], '%d/%m/%Y').strftime('%Y-%m-%d')`. */
  function DateColumn(row: Row, column: string): (r: Result<string, ImportError>)
    ensures r.Failure? ==> r.error.column == column && Explains(row, r.error)
  {
    var text :- Column(row, column);
    match ParseDmy(text)
    case Failure(e) => Failure(BadDate(column, e))
    case Success(d) => Success(FormatIso(d))
  }

  /** `int(row[column])`. */
  function IntColumn(row: Row, column: string): (r: Result<int, ImportError>)
    ensures r.Failure? ==> r.error.column == column && Explains(row, r.error)
  {
    var text :- Column(row, column);
    match ParseInt(text)
    case None => Failure(BadInteger(column, text))
    case Some(n) => Success(n)
  }

  /** The cells of a row, each converted as the source converts it. */
  datatype Cells = Cells(
    start: string, end: string, id: string, carId: int, duration: int,
    km: int, contracted: int, price: int, location: string, insurance: string)

  /** The reads and conversions of one loop iteration, in the order the source evaluates
      them; the first failure is the one reported. */
  function ReadCells(row: Row): (r: Result<Cells, ImportError>)
    ensures r.Failure? ==> Explains(row, r.error)
    ensures r.Success? ==> "SubscriptionId" in row && r.value.id == row["SubscriptionId"]
  {
    var start :- DateColumn(row, "SubscriptionStartDate");
    var end :- DateColumn(row, "SubscriptionEndDate");
    var id :- Column(row, "SubscriptionId");
    var carId :- IntColumn(row, "CarId");
    var duration :- IntColumn(row, "SubscriptionDurationMonths");
    var km :- IntColumn(row, "KmDrivenDuringSubscription");
    var contracted :- IntColumn(row, "ContractedKm");
    var price :- IntColumn(row, "MonthlySubscriptionPrice");
    var location :- Column(row, "DeliveryLocation");
    var insurance :- Column(row, "HasDeliveryInsurance");
    Success(Cells(start, end, id, carId, duration, km, contracted, price, location, insurance))
  }

  /** The document `set` writes for converted cells. */
  function BuildDocument(c: Cells): (d: Document)
    ensures d.id == c.id && d.record.Keys == RecordFields
  {
    Document(c.id, map[
      CarIdField := Int(c.carId),
      StartField := Str(c.start),
      EndField := Str(c.end),
      DurationField := Int(c.duration),
      KmDrivenField := Int(c.km),
      ContractedKmField := Int(c.contracted),
      PriceField := Int(c.price),
      LocationField := Str(c.location),
      InsuranceField := Bool(c.insurance == "TRUE")
    ])
  }

  /** One iteration of the import loop, up to the Firestore write. */
  function ConvertRow(row: Row): (r: Result<Document, ImportError>)
    ensures r.Failure? ==> Explains(row, r.error)
    ensures r.Success? ==> "SubscriptionId" in row && r.value.id == row["SubscriptionId"]
    ensures r.Success? ==> r.value.record.Keys == RecordFields
  {
    var cells :- ReadCells(row);
    Success(BuildDocument(cells))
  }

  predicate DateCell(row: Row, column: string) {
    column in row && ParseDmy(row[column]).Success?
  }

  predicate IntCell(row: Row, column: string) {
    column in row && ParseInt(row[column]).Some?
  }

  /** Every column present, both dates in DD/MM/YYYY and every integer column an integer. */
  predicate Convertible(row: Row) {
    && DateCell(row, "SubscriptionStartDate")
    && DateCell(row, "SubscriptionEndDate")
    && "SubscriptionId" in row
    && IntCell(row, "CarId")
    && IntCell(row, "SubscriptionDurationMonths")
    && IntCell(row, "KmDrivenDuringSubscription")
    && IntCell(row, "ContractedKm")
    && IntCell(row, "MonthlySubscriptionPrice")
    && "DeliveryLocation" in row
    && "HasDeliveryInsurance" in row
  }

  /** A row converts exactly when every column is present and every date and number cell parses. */
  lemma ConvertRowSucceeds(row: Row)
    ensures ConvertRow(row).Success? <==> Convertible(row)
  {
    DateColumnSucceeds(row, "SubscriptionStartDate");
    DateColumnSucceeds(row, "SubscriptionEndDate");
    IntColumnSucceeds(row, "CarId");
    IntColumnSucceeds(row, "SubscriptionDurationMonths");
    IntColumnSucceeds(row, "KmDrivenDuringSubscription");
    IntColumnSucceeds(row, "ContractedKm");
    IntColumnSucceeds(row, "MonthlySubscriptionPrice");
  }

  lemma DateColumnSucceeds(row: Row, column: string)
    ensures DateColumn(row, column).Success? <==> DateCell(row, column)
  {
  }

  lemma IntColumnSucceeds(row: Row, column: string)
    ensures IntColumn(row, column).Success? <==> IntCell(row, column)
  {
  }

  /** The start date is read first: when it does not parse, that is the error reported. */
  lemma BadStartReportedFirst(row: Row)
    requires "SubscriptionStartDate" in row && ParseDmy(row["SubscriptionStartDate"]).Failure?
    ensures ConvertRow(row) == Failure(BadDate("SubscriptionStartDate", ParseDmy(row["SubscriptionStartDate"]).error))
  {
  }

  /** The cells of a convertible row, read directly. */
  function CellsOf(row: Row): Cells
    requires Convertible(row)
  {
    Cells(
      FormatIso(ParseDmy(row["SubscriptionStartDate"]).value),
      FormatIso(ParseDmy(row["SubscriptionEndDate"]).value),
      row["SubscriptionId"],
      ParseInt(row["CarId"]).value,
      ParseInt(row["SubscriptionDurationMonths"]).value,
      ParseInt(row["KmDrivenDuringSubscription"]).value,
      ParseInt(row["ContractedKm"]).value,
      ParseInt(row["MonthlySubscriptionPrice"]).value,
      row["DeliveryLocation"],
      row["HasDeliveryInsurance"])
  }

  /** On a convertible row the chain of reads yields exactly those cells. */
  lemma ReadCellsOf(row: Row)
    requires Convertible(row)
    ensures ConvertRow(row) == Success(BuildDocument(CellsOf(row)))
  {
  }

  lemma BuiltFields(c: Cells)
    ensures BuildDocument(c).record.Keys == RecordFields
    ensures BuildDocument(c).record[StartField] == Str(c.start)
    ensures BuildDocument(c).record[EndField] == Str(c.end)
    ensures BuildDocument(c).record[LocationField] == Str(c.location)
    ensures BuildDocument(c).record[PriceField] == Int(c.price)
    ensures BuildDocument(c).record[InsuranceField] == Bool(c.insurance == "TRUE")
  {
  }

  /** Both dates are rewritten from DD/MM/YYYY to zero-padded YYYY-MM-DD: the stored text is
      exactly what `strftime` writes for the date the CSV cell denotes, and reads back as it. */
  lemma ConvertedDates(row: Row)
    requires Convertible(row)
    ensures ConvertRow(row).Success?
    ensures var rec := ConvertRow(row).value.record;
      && rec[StartField] == Str(FormatIso(ParseDmy(row["SubscriptionStartDate"]).value))
      && rec[EndField] == Str(FormatIso(ParseDmy(row["SubscriptionEndDate"]).value))
      && ParseIso(rec[StartField].s) == ParseDmy(row["SubscriptionStartDate"])
      && ParseIso(rec[EndField].s) == ParseDmy(row["SubscriptionEndDate"])
  {
    ReadCellsOf(row);
    BuiltFields(CellsOf(row));
    ParseFormatIso(ParseDmy(row["SubscriptionStartDate"]).value);
    ParseFormatIso(ParseDmy(row["SubscriptionEndDate"]).value);
  }

  /** The document id is the SubscriptionId cell, the insurance flag is true exactly when the
      cell reads "TRUE", and the document has the nine fields of one the service adds. */
  lemma ConvertedFields(row: Row)
    requires Convertible(row)
    ensures ConvertRow(row).Success?
    ensures var doc := ConvertRow(row).value;
      && doc.id == row["SubscriptionId"]
      && doc.record[InsuranceField] == Bool(row["HasDeliveryInsurance"] == "TRUE")
      && doc.record[LocationField] == Str(row["DeliveryLocation"])
      && doc.record[PriceField] == Int(ParseInt(row["MonthlySubscriptionPrice"]).value)
      && doc.record.Keys == RecordFields
  {
    ReadCellsOf(row);
    BuiltFields(CellsOf(row));
  }

  /** For an imported document the store's active filter and `_is_available` agree. */
  lemma ImportedActiveAgrees(row: Row, today: Date)
    requires Convertible(row) && Valid(today)
    ensures ConvertRow(row).Success?
    ensures var rec := ConvertRow(row).value.record;
      Active(rec, FormatIso(today)) <==> IsAvailable(rec[StartField], rec[EndField], today) == Reply(200, Bool(false))
  {
    ConvertedDates(row);
    ActiveAgreesWithAvailability(ConvertRow(row).value.record,
      ParseDmy(row["SubscriptionStartDate"]).value, ParseDmy(row["SubscriptionEndDate"]).value, today);
  }
}
