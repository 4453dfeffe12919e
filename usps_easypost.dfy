/**
 * The USPS/EasyPost carrier adapter: bill identities from the export rows (GetBills),
 * the staging plan for the bill table (BuildStagingPlan) and the account check (Validate).
 *
 * The library parsers the adapter calls are passed in as `Parsers`, so every property
 * below holds whatever those parsers accept.
 */
module UspsEasyPost {
  import opened Wrappers
  import opened Calendar
  import opened RowAccess
  import opened Columns
  import opened OrderedSets
  import opened Scans

  /**
   * The library parsers the adapter relies on, each a partial function from the cell
   * texts it accepts to the value it reads them as.
   */
  datatype Parsers = Parsers(
    rfc3339: imap<string, Time>,      // time.Parse(time.RFC3339, s)
    compactDate: imap<string, Time>,  // time.Parse("1/2/06", s)
    float: imap<string, real>,        // data.Float on the cell's text
    atoi: imap<string, int>)          // strconv.Atoi

  datatype Error =
    | InvalidDate(header: string, value: string)    // header %q: invalid date %q
    | InvalidNumber(value: string)                  // the numeric parser's error on a cell
    | AccountMismatch(inBill: string, given: string)
    | Wrapped(step: Step, cause: Error)             // fmt.Errorf("<step>: %w", cause)

  /**
   * The step of the adapter whose failure an error reports: Go's message starts with
   * "failed to parse invoice date" for InvoiceDate and with "parse" and the column for Parse.
   */
  datatype Step = InvoiceDate | Parse(column: Column)

  /** domain.BillDetails: one bill identity; two are the same bill when all four fields agree. */
  datatype BillDetails = BillDetails(invoiceId: string, invoiceDate: Time,
                                     warehouseZip: string, accountNo: string)

  /** domain.BillUploadDetails, reduced to the field the adapter reads. */
  datatype BillUploadDetails = BillUploadDetails(accountNumber: string)

  /** One value of a staging row (Go's `any`). */
  datatype Value = Text(text: string) | Decimal(number: real) | Integer(whole: int) | Timestamp(time: Time)

  type Row = seq<Value>

  datatype StagingBatch = StagingBatch(name: string, table: string, cols: seq<string>,
                                       rows: seq<Row>, chunk: int)

  /** A stored-procedure call run after the named batches; `params` is what its closure returns. */
  datatype SprocCall = SprocCall(name: string, after: seq<string>, params: seq<Value>)

  datatype StagingPlan = StagingPlan(batches: seq<StagingBatch>, sprocs: seq<SprocCall>)

  /** `domain.StagingPlan{}`. */
  const EmptyPlan: StagingPlan := StagingPlan([], [])

  const BillBatchName: string := "usps_easypost_bill"
  const BillTable: string := "elt_stage.usps_easy_post_bill"
  const BillChunk: int := 5000
  const SyncSproc: string := "elt_stage.usp_SyncUSPSEasyPost"

  function Cell(row: seq<string>, hidx: HeaderIndex, c: Column): string
  {
    Val(row, hidx, Header(c))
  }

  // ---------------------------------------------------------------------------
  // Tolerant parsing: an empty cell is a missing value, a non-empty cell that does not
  // parse is an error.

  datatype Kind = TextCell | DecimalCell | IntegerCell | DateCell

  function KindOf(c: Column): Kind
  {
    match c
    case Rate | LabelFee | PostageFee | InsuranceFee | CarbonOffsetFee => DecimalCell
    case Weight | Length | Width | Height => DecimalCell
    case USPSZone => IntegerCell
    case CreatedAt | PostageLabelCreatedAt => DateCell
    case TrackingCode | FromZip | Service | CarrierAccountID => TextCell
  }

  /** The cell is non-empty and no parser for its kind accepts it. */
  predicate Rejects(p: Parsers, k: Kind, cell: string)
  {
    match k
    case TextCell => false
    case DecimalCell => cell != "" && cell !in p.float
    case IntegerCell => cell != "" && cell !in p.atoi
    case DateCell => cell != "" && cell !in p.rfc3339 && cell !in p.compactDate
  }

  /**
   * The value a cell stands for: a missing number is zero, a missing date is the zero
   * time, and a date is read as RFC 3339 before the compact layout is tried.
   */
  function Decode(p: Parsers, k: Kind, cell: string): Value
  {
    match k
    case TextCell => Text(cell)
    case DecimalCell => Decimal(if cell in p.float then p.float[cell] else 0.0)
    case IntegerCell => Integer(if cell in p.atoi then p.atoi[cell] else 0)
    case DateCell =>
      Timestamp(if cell == "" then ZeroTime
                else if cell in p.rfc3339 then p.rfc3339[cell]
                else if cell in p.compactDate then p.compactDate[cell]
                else ZeroTime)
  }

  /**
   * `date`: the zero time for an empty cell; otherwise the RFC 3339 reading, else the
   * "1/2/06" reading, else an error naming the column and the value.
   */
  function Date(p: Parsers, record: seq<string>, idx: HeaderIndex, header: string): (r: Result<Time, Error>)
    ensures var s := Val(record, idx, header);
            && (s == "" ==> r == Success(ZeroTime))
            && (r.Failure? <==> Rejects(p, DateCell, s))
            && (r.Success? ==> Timestamp(r.value) == Decode(p, DateCell, s))
            && (r.Failure? ==> r.error == InvalidDate(header, s))
  {
    var s := Val(record, idx, header);
    if s == "" then Success(ZeroTime)
    else if s in p.rfc3339 then Success(p.rfc3339[s])
    else if s !in p.compactDate then Failure(InvalidDate(header, s))
    else Success(p.compactDate[s])
  }

  /**
   * `buildInvoiceNumber`: the account-number cell, "-", and the date as YYYY-MM-DD. For a
   * date with a four-digit year it is eleven characters longer than the account and splits
   * back into the account and that date.
   */
  function BuildInvoiceNumber(row: seq<string>, hidx: HeaderIndex, createdAtDate: Time): (id: string)
    ensures var acct := Cell(row, hidx, CarrierAccountID);
            && |id| > |acct| && id[..|acct|] == acct && id[|acct|] == '-'
            && (CalendarDate(createdAtDate) ==>
                  |id| == |acct| + 11
                  && SplitInvoiceNumber(id)
                     == Some((acct, createdAtDate.year, createdAtDate.month, createdAtDate.day)))
  {
    var carrierAccountId := Cell(row, hidx, CarrierAccountID);
    var dateStr := FormatDate(createdAtDate);
    var id := carrierAccountId + "-" + dateStr;
    assert id[..|carrierAccountId|] == carrierAccountId && id[|carrierAccountId| + 1..] == dateStr;
    id
  }

  /** Splits an invoice number at its last eleven characters into account and date. */
  function SplitInvoiceNumber(id: string): Option<(string, int, int, int)>
  {
    if |id| < 11 || id[|id| - 11] != '-' then None
    else
      match ParseDate(id[|id| - 10..])
      case None => None
      case Some(ymd) => Some((id[..|id| - 11], ymd.0, ymd.1, ymd.2))
  }

  /** The invoice number stays within the 40 characters allowed exactly when the account has at most 29. */
  lemma InvoiceNumberLength(row: seq<string>, hidx: HeaderIndex, d: Time)
    requires CalendarDate(d)
    ensures |BuildInvoiceNumber(row, hidx, d)| <= 40 <==> |Cell(row, hidx, CarrierAccountID)| <= 29
  {
  }

  /** Equal invoice numbers come from the same account and the same calendar date. */
  lemma InvoiceNumberInjective(row1: seq<string>, hidx1: HeaderIndex, d1: Time,
                               row2: seq<string>, hidx2: HeaderIndex, d2: Time)
    requires CalendarDate(d1) && CalendarDate(d2)
    requires BuildInvoiceNumber(row1, hidx1, d1) == BuildInvoiceNumber(row2, hidx2, d2)
    ensures Cell(row1, hidx1, CarrierAccountID) == Cell(row2, hidx2, CarrierAccountID)
    ensures d1.year == d2.year && d1.month == d2.month && d1.day == d2.day
  {
  }

  // ---------------------------------------------------------------------------
  // GetBills

  /** The row's creation-date cell is present but neither layout accepts it. */
  predicate DateRejected(p: Parsers, hidx: HeaderIndex, row: seq<string>)
  {
    Rejects(p, DateCell, Cell(row, hidx, CreatedAt))
  }

  /** The bill identity a row whose creation date parses stands for. */
  function BillOf(p: Parsers, hidx: HeaderIndex, row: seq<string>): BillDetails
  {
    var createdAt := Decode(p, DateCell, Cell(row, hidx, CreatedAt)).time;
    BillDetails(BuildInvoiceNumber(row, hidx, createdAt), createdAt,
                Cell(row, hidx, FromZip), Cell(row, hidx, CarrierAccountID))
  }

  /** One iteration of GetBills' loop before the insertion: the row's bill or its date error. */
  method ParseBillRow(p: Parsers, hidx: HeaderIndex, row: seq<string>) returns (r: Result<BillDetails, Error>)
    ensures r.Failure? <==> DateRejected(p, hidx, row)
    ensures r.Failure? ==> r.error == InvalidDate(Header(CreatedAt), Cell(row, hidx, CreatedAt))
    ensures r.Success? ==> r.value == BillOf(p, hidx, row)
  {
    var createdAtDate := Date(p, row, hidx, Header(CreatedAt));
    if createdAtDate.Failure? {
      return Failure(createdAtDate.error);
    }
    var invoiceID := BuildInvoiceNumber(row, hidx, createdAtDate.value);
    var warehouseZip := Val(row, hidx, Header(FromZip));
    var accountNumber := Val(row, hidx, Header(CarrierAccountID));
    r := Success(BillDetails(invoiceID, createdAtDate.value, warehouseZip, accountNumber));
  }

  /** The bill identity of each row, as a function to map over the rows. */
  function BillOfRow(p: Parsers, hidx: HeaderIndex): seq<string> -> BillDetails
  {
    row => BillOf(p, hidx, row)
  }

  /** The error GetBills reports for a row whose creation date is rejected. */
  function BillDateError(hidx: HeaderIndex, row: seq<string>): Error
  {
    Wrapped(InvoiceDate, InvalidDate(Header(CreatedAt), Cell(row, hidx, CreatedAt)))
  }

  /** GetBills' check of one row: its date error, if its creation date is rejected. */
  function DateCheck(p: Parsers, hidx: HeaderIndex): seq<string> -> Option<Error>
  {
    row => if DateRejected(p, hidx, row) then Some(BillDateError(hidx, row)) else None
  }

  /** GetBills' result: the first date error, else the distinct bills in first-seen order. */
  function GetBillsSpec(p: Parsers, hidx: HeaderIndex, rows: seq<seq<string>>): Result<seq<BillDetails>, Error>
  {
    match FirstError(DateCheck(p, hidx), rows)
    case Some(e) => Failure(e)
    case None => Success(Dedup(MapSeq(BillOfRow(p, hidx), rows)))
  }

  /** GetBills succeeds exactly when no row's creation date is rejected. */
  lemma GetBillsSucceeds(p: Parsers, hidx: HeaderIndex, rows: seq<seq<string>>)
    ensures GetBillsSpec(p, hidx, rows).Success? <==> forall i :: 0 <= i < |rows| ==> !DateRejected(p, hidx, rows[i])
  {
    FirstErrorNone(DateCheck(p, hidx), rows);
  }

  /** On success every row's bill is returned, and nothing else. */
  lemma GetBillsMembers(p: Parsers, hidx: HeaderIndex, rows: seq<seq<string>>, b: BillDetails)
    requires GetBillsSpec(p, hidx, rows).Success?
    ensures b in GetBillsSpec(p, hidx, rows).value <==> exists i :: 0 <= i < |rows| && b == BillOf(p, hidx, rows[i])
  {
    var bills := MapSeq(BillOfRow(p, hidx), rows);
    DedupMembers(bills);
    MapSeqMembers(BillOfRow(p, hidx), rows, b);
  }

  /** On success no bill is returned twice, and bills come in the order of their first row. */
  lemma GetBillsOrder(p: Parsers, hidx: HeaderIndex, rows: seq<seq<string>>)
    requires GetBillsSpec(p, hidx, rows).Success?
    ensures var r, bills := GetBillsSpec(p, hidx, rows), MapSeq(BillOfRow(p, hidx), rows);
            && NoDuplicates(r.value)
            && (forall b :: b in r.value ==> b in bills)
            && forall i, j :: 0 <= i < j < |r.value| ==> FirstIndex(bills, r.value[i]) < FirstIndex(bills, r.value[j])
  {
    var bills := MapSeq(BillOfRow(p, hidx), rows);
    DedupMembers(bills);
    DedupNoDuplicates(bills);
    DedupFirstSeenOrder(bills);
  }

  /** A failed GetBills reports the first row whose creation date is rejected. */
  lemma GetBillsFirstError(p: Parsers, hidx: HeaderIndex, rows: seq<seq<string>>)
    requires GetBillsSpec(p, hidx, rows).Failure?
    ensures exists k :: 0 <= k < |rows| && DateRejected(p, hidx, rows[k])
              && (forall j :: 0 <= j < k ==> !DateRejected(p, hidx, rows[j]))
              && GetBillsSpec(p, hidx, rows).error
                   == Wrapped(InvoiceDate, InvalidDate(Header(CreatedAt), Cell(rows[k], hidx, CreatedAt)))
  {
    FirstErrorFirst(DateCheck(p, hidx), rows);
  }

  /**
   * `GetBills`: the distinct bill identities of the rows in first-seen order, or the
   * error of the first row whose creation date is present but unparseable.
   */
  method GetBills(p: Parsers, headers: seq<string>, rows: seq<seq<string>>)
    returns (r: Result<seq<BillDetails>, Error>)
    ensures r == GetBillsSpec(p, BuildHeaderIndex(headers), rows)
  {
    var hidx := BuildHeaderIndex(headers);
    var unique := new OrderedSet<BillDetails>();
    for i := 0 to |rows|
      invariant unique.Valid()
      invariant FirstError(DateCheck(p, hidx), rows[..i]).None?
      invariant unique.added == MapSeq(BillOfRow(p, hidx), rows[..i])
    {
      var bill := ParseBillRow(p, hidx, rows[i]);
      FirstErrorNext(DateCheck(p, hidx), rows, i);
      if bill.Failure? {
        FirstErrorStays(DateCheck(p, hidx), rows, i + 1);
        return Failure(Wrapped(InvoiceDate, bill.error));
      }
      MapSeqSnoc(BillOfRow(p, hidx), rows, i);
      unique.Add(bill.value);
    }
    assert rows[..|rows|] == rows;
    var values := unique.Values();
    r := Success(values);
  }

  // ---------------------------------------------------------------------------
  // Staging rows

  /** `columns.BillDBColumnNames`: the bill table's columns, position for position with a staged row. */
  const BillDBColumnNames: seq<string> := [
    "tracking_code", "weight",
    "rate", "label_fee", "postage_fee",
    "usps_zone", "from_zip",
    "length", "width", "height",
    "postage_label_created_at",
    "insurance_fee", "carbon_offset_fee",
    "bill_date", "invoice_number",
    "service"]

  /** How many columns extractBillRecords parses. */
  const CheckCount: nat := 12

  /** The `k`-th column extractBillRecords parses. */
  function CheckColumn(k: nat): Column
    requires k < CheckCount
  {
    match k
    case 0 => Rate
    case 1 => LabelFee
    case 2 => PostageFee
    case 3 => InsuranceFee
    case 4 => CarbonOffsetFee
    case 5 => Weight
    case 6 => Length
    case 7 => Width
    case 8 => Height
    case 9 => USPSZone
    case 10 => CreatedAt
    case _ => PostageLabelCreatedAt
  }

  /** The error extractBillRecords returns for a rejected cell of column `c`. */
  function FieldError(c: Column, cell: string): Error
  {
    Wrapped(Parse(c), if KindOf(c) == DateCell then InvalidDate(Header(c), cell) else InvalidNumber(cell))
  }

  predicate ColumnRejected(p: Parsers, rec: seq<string>, hidx: HeaderIndex, c: Column)
  {
    Rejects(p, KindOf(c), Cell(rec, hidx, c))
  }

  /** Some column extractBillRecords parses is non-empty and unparseable. */
  predicate RowRejected(p: Parsers, rec: seq<string>, hidx: HeaderIndex)
  {
    exists k :: 0 <= k < CheckCount && ColumnRejected(p, rec, hidx, CheckColumn(k))
  }

  /** The first column among checks `k` up to (not including) `hi` whose cell is rejected. */
  function FirstRejectedIn(p: Parsers, rec: seq<string>, hidx: HeaderIndex, k: nat, hi: nat): Option<Column>
    requires k <= hi <= CheckCount
    decreases hi - k
  {
    if k == hi then None
    else if ColumnRejected(p, rec, hidx, CheckColumn(k)) then Some(CheckColumn(k))
    else FirstRejectedIn(p, rec, hidx, k + 1, hi)
  }

  /** The error for the first rejected column among checks `k` up to `hi`, if any. */
  function FirstErrorIn(p: Parsers, rec: seq<string>, hidx: HeaderIndex, k: nat, hi: nat): Option<Error>
    requires k <= hi <= CheckCount
  {
    match FirstRejectedIn(p, rec, hidx, k, hi)
    case None => None
    case Some(c) => Some(FieldError(c, Cell(rec, hidx, c)))
  }

  /** Scanning checks lo..hi is scanning lo..mid, then mid..hi when nothing was rejected. */
  lemma {:induction false} FirstRejectedSplit(p: Parsers, rec: seq<string>, hidx: HeaderIndex, lo: nat, mid: nat, hi: nat)
    requires lo <= mid <= hi <= CheckCount
    ensures FirstRejectedIn(p, rec, hidx, lo, hi) ==
            if FirstRejectedIn(p, rec, hidx, lo, mid).Some? then FirstRejectedIn(p, rec, hidx, lo, mid)
            else FirstRejectedIn(p, rec, hidx, mid, hi)
    decreases mid - lo
  {
    if lo < mid {
      FirstRejectedSplit(p, rec, hidx, lo + 1, mid, hi);
    }
  }

  /** One staged bill line, field for field with the bill table's columns. */
  datatype StagedBill = StagedBill(
    trackingCode: string, weight: real, rate: real, labelFee: real, postageFee: real,
    uspsZone: int, fromZip: string, length: real, width: real, height: real,
    postageLabelCreatedAt: Time, insuranceFee: real, carbonOffsetFee: real,
    billDate: Time, invoiceNumber: string, service: string)

  /** The number, integer or time a column's cell stands for, read tolerantly. */
  function DecimalOf(p: Parsers, rec: seq<string>, hidx: HeaderIndex, c: Column): real
  {
    Decode(p, DecimalCell, Cell(rec, hidx, c)).number
  }

  function IntegerOf(p: Parsers, rec: seq<string>, hidx: HeaderIndex, c: Column): int
  {
    Decode(p, IntegerCell, Cell(rec, hidx, c)).whole
  }

  function DateOf(p: Parsers, rec: seq<string>, hidx: HeaderIndex, c: Column): Time
  {
    Decode(p, DateCell, Cell(rec, hidx, c)).time
  }

  /** The staged bill of a record whose cells all parse, each cell read tolerantly. */
  function StagedBillOf(p: Parsers, rec: seq<string>, hidx: HeaderIndex): StagedBill
  {
    StagedBill(Cell(rec, hidx, TrackingCode), DecimalOf(p, rec, hidx, Weight),
      DecimalOf(p, rec, hidx, Rate), DecimalOf(p, rec, hidx, LabelFee), DecimalOf(p, rec, hidx, PostageFee),
      IntegerOf(p, rec, hidx, USPSZone), Cell(rec, hidx, FromZip),
      DecimalOf(p, rec, hidx, Length), DecimalOf(p, rec, hidx, Width), DecimalOf(p, rec, hidx, Height),
      DateOf(p, rec, hidx, PostageLabelCreatedAt),
      DecimalOf(p, rec, hidx, InsuranceFee), DecimalOf(p, rec, hidx, CarbonOffsetFee),
      DateOf(p, rec, hidx, CreatedAt), BuildInvoiceNumber(rec, hidx, DateOf(p, rec, hidx, CreatedAt)),
      Cell(rec, hidx, Service))
  }

  /** The staged row as the bill table receives it: one value per column, in column order. */
  function Values(b: StagedBill): (row: Row)
    ensures |row| == |BillDBColumnNames|
    ensures row[13] == Timestamp(b.billDate) && row[14] == Text(b.invoiceNumber)
  {
    [Text(b.trackingCode), Decimal(b.weight),
     Decimal(b.rate), Decimal(b.labelFee), Decimal(b.postageFee),
     Integer(b.uspsZone), Text(b.fromZip),
     Decimal(b.length), Decimal(b.width), Decimal(b.height),
     Timestamp(b.postageLabelCreatedAt),
     Decimal(b.insuranceFee), Decimal(b.carbonOffsetFee),
     Timestamp(b.billDate), Text(b.invoiceNumber),
     Text(b.service)]
  }

  /** A library parse: the value read (zero on error, as Go's parsers return) and the error. */
  datatype Parsed<T> = Parsed(value: T, err: Option<Error>)

  /** `data.Float` on a column's cell. */
  function Float(p: Parsers, rec: seq<string>, hidx: HeaderIndex, c: Column): (r: Parsed<real>)
    ensures r.err.None? <==> Cell(rec, hidx, c) in p.float
    ensures r.err.Some? ==> r.err.value == InvalidNumber(Cell(rec, hidx, c)) && r.value == 0.0
  {
    var s := Cell(rec, hidx, c);
    if s in p.float then Parsed(p.float[s], None) else Parsed(0.0, Some(InvalidNumber(s)))
  }

  /** `strconv.Atoi` on a cell. */
  function Atoi(p: Parsers, s: string): (r: Parsed<int>)
    ensures r.err.None? <==> s in p.atoi
    ensures r.err.Some? ==> r.err.value == InvalidNumber(s) && r.value == 0
  {
    if s in p.atoi then Parsed(p.atoi[s], None) else Parsed(0, Some(InvalidNumber(s)))
  }

  /** The fee columns of extractBillRecords, checks 0 to 4, parsed in order. */
  method ParseFees(p: Parsers, rec: seq<string>, hidx: HeaderIndex)
    returns (rate: real, labelFee: real, postageFee: real, insuranceFee: real, carbonOffsetFee: real,
             err: Option<Error>)
    ensures err == FirstErrorIn(p, rec, hidx, 0, 5)
    ensures err.None? ==> rate == DecimalOf(p, rec, hidx, Rate) && labelFee == DecimalOf(p, rec, hidx, LabelFee)
                          && postageFee == DecimalOf(p, rec, hidx, PostageFee)
                          && insuranceFee == DecimalOf(p, rec, hidx, InsuranceFee)
                          && carbonOffsetFee == DecimalOf(p, rec, hidx, CarbonOffsetFee)
  {
    var r := Float(p, rec, hidx, Rate);
    if r.err.Some? && Cell(rec, hidx, Rate) != "" {
      return 0.0, 0.0, 0.0, 0.0, 0.0, Some(Wrapped(Parse(Rate), r.err.value));
    }
    var l := Float(p, rec, hidx, LabelFee);
    if l.err.Some? && Cell(rec, hidx, LabelFee) != "" {
      return 0.0, 0.0, 0.0, 0.0, 0.0, Some(Wrapped(Parse(LabelFee), l.err.value));
    }
    var pf := Float(p, rec, hidx, PostageFee);
    if pf.err.Some? && Cell(rec, hidx, PostageFee) != "" {
      return 0.0, 0.0, 0.0, 0.0, 0.0, Some(Wrapped(Parse(PostageFee), pf.err.value));
    }
    var i := Float(p, rec, hidx, InsuranceFee);
    if i.err.Some? && Cell(rec, hidx, InsuranceFee) != "" {
      return 0.0, 0.0, 0.0, 0.0, 0.0, Some(Wrapped(Parse(InsuranceFee), i.err.value));
    }
    var c := Float(p, rec, hidx, CarbonOffsetFee);
    if c.err.Some? && Cell(rec, hidx, CarbonOffsetFee) != "" {
      return 0.0, 0.0, 0.0, 0.0, 0.0, Some(Wrapped(Parse(CarbonOffsetFee), c.err.value));
    }
    return r.value, l.value, pf.value, i.value, c.value, None;
  }

  /** The dimension columns of extractBillRecords, checks 5 to 8, parsed in order. */
  method ParseDimensions(p: Parsers, rec: seq<string>, hidx: HeaderIndex)
    returns (weight: real, length: real, width: real, height: real, err: Option<Error>)
    ensures err == FirstErrorIn(p, rec, hidx, 5, 9)
    ensures err.None? ==> weight == DecimalOf(p, rec, hidx, Weight) && length == DecimalOf(p, rec, hidx, Length)
                          && width == DecimalOf(p, rec, hidx, Width) && height == DecimalOf(p, rec, hidx, Height)
  {
    var we := Float(p, rec, hidx, Weight);
    if we.err.Some? && Cell(rec, hidx, Weight) != "" {
      return 0.0, 0.0, 0.0, 0.0, Some(Wrapped(Parse(Weight), we.err.value));
    }
    var l := Float(p, rec, hidx, Length);
    if l.err.Some? && Cell(rec, hidx, Length) != "" {
      return 0.0, 0.0, 0.0, 0.0, Some(Wrapped(Parse(Length), l.err.value));
    }
    var wi := Float(p, rec, hidx, Width);
    if wi.err.Some? && Cell(rec, hidx, Width) != "" {
      return 0.0, 0.0, 0.0, 0.0, Some(Wrapped(Parse(Width), wi.err.value));
    }
    var h := Float(p, rec, hidx, Height);
    if h.err.Some? && Cell(rec, hidx, Height) != "" {
      return 0.0, 0.0, 0.0, 0.0, Some(Wrapped(Parse(Height), h.err.value));
    }
    return we.value, l.value, wi.value, h.value, None;
  }

  /** The zone column of extractBillRecords, check 9. */
  method ParseZone(p: Parsers, rec: seq<string>, hidx: HeaderIndex) returns (uspsZone: int, err: Option<Error>)
    ensures err == FirstErrorIn(p, rec, hidx, 9, 10)
    ensures err.None? ==> uspsZone == IntegerOf(p, rec, hidx, USPSZone)
  {
    var z := Atoi(p, Cell(rec, hidx, USPSZone));
    if z.err.Some? && Cell(rec, hidx, USPSZone) != "" {
      return 0, Some(Wrapped(Parse(USPSZone), z.err.value));
    }
    return z.value, None;
  }

  /** The two date columns of extractBillRecords, checks 10 and 11, parsed in order. */
  method ParseDates(p: Parsers, rec: seq<string>, hidx: HeaderIndex)
    returns (billDate: Time, postageLabelCreatedAt: Time, err: Option<Error>)
    ensures err == FirstErrorIn(p, rec, hidx, 10, CheckCount)
    ensures err.None? ==> billDate == DateOf(p, rec, hidx, CreatedAt)
                          && postageLabelCreatedAt == DateOf(p, rec, hidx, PostageLabelCreatedAt)
  {
    var b := Date(p, rec, hidx, Header(CreatedAt));
    if b.Failure? {
      return ZeroTime, ZeroTime, Some(Wrapped(Parse(CreatedAt), b.error));
    }
    var l := Date(p, rec, hidx, Header(PostageLabelCreatedAt));
    if l.Failure? {
      return ZeroTime, ZeroTime, Some(Wrapped(Parse(PostageLabelCreatedAt), l.error));
    }
    return b.value, l.value, None;
  }

  /**
   * `extractBillRecords`: parses the record's cells in the adapter's order, stops at the
   * first non-empty cell that does not parse, and otherwise appends the staged row.
   */
  method ExtractBillRecords(p: Parsers, rec: seq<string>, hidx: HeaderIndex, records: seq<Row>)
    returns (r: Result<seq<Row>, Error>)
    ensures match FirstErrorIn(p, rec, hidx, 0, CheckCount)
            case Some(e) => r == Failure(e)
            case None => r == Success(records + [Values(StagedBillOf(p, rec, hidx))])
  {
    var trackingCode := Cell(rec, hidx, TrackingCode);
    var rate, labelFee, postageFee, insuranceFee, carbonOffsetFee, err := ParseFees(p, rec, hidx);
    FirstRejectedSplit(p, rec, hidx, 0, 5, CheckCount);
    if err.Some? {
      return Failure(err.value);
    }
    var weight, length, width, height, err' := ParseDimensions(p, rec, hidx);
    FirstRejectedSplit(p, rec, hidx, 5, 9, CheckCount);
    if err'.Some? {
      return Failure(err'.value);
    }
    var fromZip := Cell(rec, hidx, FromZip);
    var uspsZone, err'' := ParseZone(p, rec, hidx);
    FirstRejectedSplit(p, rec, hidx, 9, 10, CheckCount);
    if err''.Some? {
      return Failure(err''.value);
    }
    var billDate, postageLabelCreatedAt, err''' := ParseDates(p, rec, hidx);
    if err'''.Some? {
      return Failure(err'''.value);
    }
    var invoiceNumber := BuildInvoiceNumber(rec, hidx, billDate);
    var service := Cell(rec, hidx, Service);
    var bill := StagedBill(trackingCode, weight, rate, labelFee, postageFee,
                           uspsZone, fromZip, length, width, height,
                           postageLabelCreatedAt, insuranceFee, carbonOffsetFee,
                           billDate, invoiceNumber, service);
    r := Success(records + [Values(bill)]);
  }

  /** The checks from `k` to `hi` find nothing exactly when none of those columns is rejected. */
  lemma {:induction false} FirstRejectedNone(p: Parsers, rec: seq<string>, hidx: HeaderIndex, k: nat, hi: nat)
    requires k <= hi <= CheckCount
    ensures FirstRejectedIn(p, rec, hidx, k, hi).None? <==>
            forall j :: k <= j < hi ==> !ColumnRejected(p, rec, hidx, CheckColumn(j))
    decreases hi - k
  {
    if k < hi {
      FirstRejectedNone(p, rec, hidx, k + 1, hi);
    }
  }

  /** A column the checks find is rejected, and every column checked before it is not. */
  lemma {:induction false} FirstRejectedFirst(p: Parsers, rec: seq<string>, hidx: HeaderIndex, k: nat, hi: nat)
    requires k <= hi <= CheckCount && FirstRejectedIn(p, rec, hidx, k, hi).Some?
    ensures exists i :: k <= i < hi && FirstRejectedIn(p, rec, hidx, k, hi).value == CheckColumn(i)
              && ColumnRejected(p, rec, hidx, CheckColumn(i))
              && forall j :: k <= j < i ==> !ColumnRejected(p, rec, hidx, CheckColumn(j))
    decreases hi - k
  {
    if !ColumnRejected(p, rec, hidx, CheckColumn(k)) {
      FirstRejectedFirst(p, rec, hidx, k + 1, hi);
      var i :| k + 1 <= i < hi && FirstRejectedIn(p, rec, hidx, k + 1, hi).value == CheckColumn(i)
                && ColumnRejected(p, rec, hidx, CheckColumn(i))
                && forall j :: k + 1 <= j < i ==> !ColumnRejected(p, rec, hidx, CheckColumn(j));
      assert forall j :: k <= j < i ==> !ColumnRejected(p, rec, hidx, CheckColumn(j));
    } else {
      assert FirstRejectedIn(p, rec, hidx, k, hi).value == CheckColumn(k);
    }
  }

  /** extractBillRecords fails exactly when some column it parses is present but unparseable. */
  lemma ExtractFails(p: Parsers, rec: seq<string>, hidx: HeaderIndex)
    ensures FirstErrorIn(p, rec, hidx, 0, CheckCount).Some? <==> RowRejected(p, rec, hidx)
  {
    FirstRejectedNone(p, rec, hidx, 0, CheckCount);
  }

  /**
   * The error extractBillRecords reports names the first rejected column in parse order,
   * wrapped in that column's step, with the cell's text as the cause.
   */
  lemma ExtractFirstError(p: Parsers, rec: seq<string>, hidx: HeaderIndex)
    requires FirstErrorIn(p, rec, hidx, 0, CheckCount).Some?
    ensures exists i :: 0 <= i < CheckCount && ColumnRejected(p, rec, hidx, CheckColumn(i))
              && (forall j :: 0 <= j < i ==> !ColumnRejected(p, rec, hidx, CheckColumn(j)))
              && FirstErrorIn(p, rec, hidx, 0, CheckCount).value
                   == FieldError(CheckColumn(i), Cell(rec, hidx, CheckColumn(i)))
  {
    FirstRejectedFirst(p, rec, hidx, 0, CheckCount);
  }

  /** A staged row carries the bill identity GetBills derives from the same row. */
  lemma StagedBillMatchesBill(p: Parsers, rec: seq<string>, hidx: HeaderIndex)
    ensures StagedBillOf(p, rec, hidx).billDate == BillOf(p, hidx, rec).invoiceDate
    ensures StagedBillOf(p, rec, hidx).invoiceNumber == BillOf(p, hidx, rec).invoiceId
    ensures StagedBillOf(p, rec, hidx).fromZip == BillOf(p, hidx, rec).warehouseZip
  {
  }

  /** An empty cell is not an error: every kind of column reads it as its zero value. */
  lemma EmptyCellsAccepted(p: Parsers, rec: seq<string>, hidx: HeaderIndex, c: Column)
    requires Cell(rec, hidx, c) == ""
    ensures !ColumnRejected(p, rec, hidx, c)
    ensures KindOf(c) == DateCell ==> DateOf(p, rec, hidx, c) == ZeroTime
  {
  }

  // ---------------------------------------------------------------------------
  // Staging plan

  /**
   * `buildStagingPlan`: one batch staging exactly the rows into the bill table, in chunks
   * of 5000, and one call of the sync procedure, which waits for that batch and takes no
   * parameters.
   */
  function BuildPlan(records: seq<Row>): (plan: StagingPlan)
    ensures |plan.batches| == 1
    ensures plan.batches[0] == StagingBatch(BillBatchName, BillTable, BillDBColumnNames, records, BillChunk)
    ensures plan.sprocs == [SprocCall(SyncSproc, [plan.batches[0].name], [])]
  {
    StagingPlan([StagingBatch(BillBatchName, BillTable, BillDBColumnNames, records, BillChunk)],
                 [SprocCall(SyncSproc, [BillBatchName], [])])
  }

  /** Every procedure of a plan waits for at least one batch, and only for batches the plan stages. */
  predicate SprocsAfterOwnBatches(plan: StagingPlan)
  {
    forall s :: s in plan.sprocs ==>
      s.after != [] && forall n :: n in s.after ==> exists b :: b in plan.batches && b.name == n
  }

  /** Every row of every batch has one value per column of its table. */
  predicate RowsFitColumns(plan: StagingPlan)
  {
    forall b, row :: b in plan.batches && row in b.rows ==> |row| == |b.cols|
  }

  /** The bill plan's batch has a positive chunk size, and its procedure waits only for batches the plan stages. */
  lemma BuildPlanShape(records: seq<Row>)
    ensures var plan := BuildPlan(records);
            && plan.batches[0].chunk > 0
            && SprocsAfterOwnBatches(plan)
  {
    var plan := BuildPlan(records);
    assert plan.batches[0] in plan.batches;
  }

  /** Staged rows, rows of sixteen values, fit the bill table's sixteen columns. */
  lemma BuildPlanFits(records: seq<Row>)
    requires forall i :: 0 <= i < |records| ==> |records[i]| == 16
    ensures RowsFitColumns(BuildPlan(records))
  {
  }

  /** extractBillRecords' check of one record: the error of its first rejected column, if any. */
  function RowCheck(p: Parsers, hidx: HeaderIndex): seq<string> -> Option<Error>
  {
    rec => FirstErrorIn(p, rec, hidx, 0, CheckCount)
  }

  /** The staged row of each record, as a function to map over the records. */
  function StagedRowOf(p: Parsers, hidx: HeaderIndex): seq<string> -> Row
  {
    rec => Values(StagedBillOf(p, rec, hidx))
  }

  /** BuildStagingPlan's result: the empty plan and the first record's error, else the bill plan. */
  function StagingPlanSpec(p: Parsers, hidx: HeaderIndex, rows: seq<seq<string>>): (StagingPlan, Option<Error>)
  {
    match FirstError(RowCheck(p, hidx), rows)
    case Some(e) => (EmptyPlan, Some(e))
    case None => (BuildPlan(MapSeq(StagedRowOf(p, hidx), rows)), None)
  }

  /** BuildStagingPlan succeeds exactly when every record parses, and then stages one row per record. */
  lemma StagingPlanSucceeds(p: Parsers, hidx: HeaderIndex, rows: seq<seq<string>>)
    ensures StagingPlanSpec(p, hidx, rows).1.None? <==> forall i :: 0 <= i < |rows| ==> !RowRejected(p, rows[i], hidx)
    ensures StagingPlanSpec(p, hidx, rows).1.Some? ==> StagingPlanSpec(p, hidx, rows).0 == EmptyPlan
  {
    FirstErrorNone(RowCheck(p, hidx), rows);
    forall i | 0 <= i < |rows| {
      ExtractFails(p, rows[i], hidx);
    }
  }

  /** A successful plan stages, in order, the row of each record and nothing else. */
  lemma StagingPlanRows(p: Parsers, hidx: HeaderIndex, rows: seq<seq<string>>, i: nat)
    requires StagingPlanSpec(p, hidx, rows).1.None? && i < |rows|
    ensures var batch := StagingPlanSpec(p, hidx, rows).0.batches[0];
            |batch.rows| == |rows| && batch.rows[i] == Values(StagedBillOf(p, rows[i], hidx))
  {
    MapSeqAt(StagedRowOf(p, hidx), rows, i);
  }

  /** A successful plan is well formed: its rows fit the bill table and the sync runs after the batch. */
  lemma StagingPlanWellFormed(p: Parsers, hidx: HeaderIndex, rows: seq<seq<string>>)
    requires StagingPlanSpec(p, hidx, rows).1.None?
    ensures RowsFitColumns(StagingPlanSpec(p, hidx, rows).0)
    ensures SprocsAfterOwnBatches(StagingPlanSpec(p, hidx, rows).0)
    ensures StagingPlanSpec(p, hidx, rows).0.batches[0].name == BillBatchName
    ensures StagingPlanSpec(p, hidx, rows).0.sprocs == [SprocCall(SyncSproc, [BillBatchName], [])]
  {
    var staged := MapSeq(StagedRowOf(p, hidx), rows);
    MapSeqLength(StagedRowOf(p, hidx), rows);
    forall i | 0 <= i < |staged| ensures |staged[i]| == 16 {
      MapSeqAt(StagedRowOf(p, hidx), rows, i);
    }
    BuildPlanFits(staged);
    BuildPlanShape(staged);
  }

  /** A failed BuildStagingPlan reports the error of the first record that does not parse. */
  lemma StagingPlanFirstError(p: Parsers, hidx: HeaderIndex, rows: seq<seq<string>>)
    requires StagingPlanSpec(p, hidx, rows).1.Some?
    ensures exists k :: 0 <= k < |rows| && RowRejected(p, rows[k], hidx)
              && (forall j :: 0 <= j < k ==> !RowRejected(p, rows[j], hidx))
              && StagingPlanSpec(p, hidx, rows).1 == FirstErrorIn(p, rows[k], hidx, 0, CheckCount)
  {
    FirstErrorFirst(RowCheck(p, hidx), rows);
    var k :| 0 <= k < |rows| && RowCheck(p, hidx)(rows[k]).Some?
            && (forall j :: 0 <= j < k ==> RowCheck(p, hidx)(rows[j]).None?)
            && FirstError(RowCheck(p, hidx), rows) == RowCheck(p, hidx)(rows[k]);
    ExtractFails(p, rows[k], hidx);
    forall j | 0 <= j < k ensures !RowRejected(p, rows[j], hidx) {
      ExtractFails(p, rows[j], hidx);
    }
  }

  /**
   * `BuildStagingPlan`: extracts every record in order, stopping at the first error with
   * the empty plan, and otherwise plans all the staged rows.
   */
  method BuildStagingPlan(p: Parsers, headers: seq<string>, rows: seq<seq<string>>)
    returns (plan: StagingPlan, err: Option<Error>)
    ensures (plan, err) == StagingPlanSpec(p, BuildHeaderIndex(headers), rows)
  {
    var hidx := BuildHeaderIndex(headers);
    var records: seq<Row> := [];
    for i := 0 to |rows|
      invariant FirstError(RowCheck(p, hidx), rows[..i]).None?
      invariant records == MapSeq(StagedRowOf(p, hidx), rows[..i])
    {
      var extracted := ExtractBillRecords(p, rows[i], hidx, records);
      FirstErrorNext(RowCheck(p, hidx), rows, i);
      if extracted.Failure? {
        FirstErrorStays(RowCheck(p, hidx), rows, i + 1);
        return EmptyPlan, Some(extracted.error);
      }
      MapSeqSnoc(StagedRowOf(p, hidx), rows, i);
      records := extracted.value;
    }
    assert rows[..|rows|] == rows;
    plan := BuildPlan(records);
    err := None;
  }

  // ---------------------------------------------------------------------------
  // Validate

  /** The account-mismatch errors of the bills, in order; bills without an account are skipped. */
  function Mismatches(bills: seq<BillDetails>, expected: string): seq<Error>
    decreases |bills|
  {
    if bills == [] then []
    else
      var prev := Mismatches(bills[..|bills| - 1], expected);
      var acct := bills[|bills| - 1].accountNo;
      if acct == "" || acct == expected then prev else prev + [AccountMismatch(acct, expected)]
  }

  /** A mismatch is reported exactly for a bill with an account other than the given one. */
  lemma {:induction false} MismatchesMembers(bills: seq<BillDetails>, expected: string, e: Error)
    ensures e in Mismatches(bills, expected) <==>
            exists i :: 0 <= i < |bills| && bills[i].accountNo != "" && bills[i].accountNo != expected
                        && e == AccountMismatch(bills[i].accountNo, expected)
    decreases |bills|
  {
    if bills != [] {
      var init := bills[..|bills| - 1];
      MismatchesMembers(init, expected, e);
      assert forall i :: 0 <= i < |init| ==> init[i] == bills[i];
    }
  }

  /** Checking bills in two parts reports the first part's mismatches, then the second's. */
  lemma {:induction false} MismatchesAppend(a: seq<BillDetails>, b: seq<BillDetails>, expected: string)
    ensures Mismatches(a + b, expected) == Mismatches(a, expected) + Mismatches(b, expected)
    decreases |b|
  {
    if b == [] {
      assert a + b == a;
    } else {
      var b' := b[..|b| - 1];
      assert (a + b)[..|a + b| - 1] == a + b';
      MismatchesAppend(a, b', expected);
    }
  }

  /** No bill gives more than one error, and bills that all agree or carry no account give none. */
  lemma {:induction false} MismatchesBound(bills: seq<BillDetails>, expected: string)
    ensures |Mismatches(bills, expected)| <= |bills|
    ensures (forall i :: 0 <= i < |bills| ==> bills[i].accountNo in {"", expected})
            ==> Mismatches(bills, expected) == []
    decreases |bills|
  {
    if bills != [] {
      var init := bills[..|bills| - 1];
      MismatchesBound(init, expected);
      assert forall i :: 0 <= i < |init| ==> init[i] == bills[i];
    }
  }

  /** `Validate`: one account-mismatch error per bill whose account differs from the upload's. */
  method Validate(billDetails: seq<BillDetails>, billUploadDetails: BillUploadDetails)
    returns (errors: seq<Error>)
    ensures errors == Mismatches(billDetails, billUploadDetails.accountNumber)
  {
    errors := [];
    for i := 0 to |billDetails|
      invariant errors == Mismatches(billDetails[..i], billUploadDetails.accountNumber)
    {
      var bill := billDetails[i];
      assert billDetails[..i + 1][..i] == billDetails[..i];
      if bill.accountNo == "" {
        continue;
      }
      if bill.accountNo != billUploadDetails.accountNumber {
        errors := errors + [AccountMismatch(bill.accountNo, billUploadDetails.accountNumber)];
      }
    }
    assert billDetails[..|billDetails|] == billDetails;
  }
}
