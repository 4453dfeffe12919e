# USPS/EasyPost carrier adapter, modelled in Dafny

This project models the core of the USPS/EasyPost bill adapter
(`usps_easypost_transform/refernce_go_Script.go`). The adapter turns the rows of a
carrier bill export into three things:

- **GetBills**: the distinct bill identities. Each is an invoice number built from the
  carrier account and the creation date, plus the invoice date, the warehouse ZIP and the
  account. They come in first-seen order. GetBills stops at the first row whose creation
  date is present but unparseable.
- **BuildStagingPlan**: a staging plan. extractBillRecords turns each record into one
  16-value row for the `elt_stage.usps_easy_post_bill` table. buildStagingPlan puts all
  the rows into one batch, followed by one call of the `elt_stage.usp_SyncUSPSEasyPost`
  procedure. The first record with a present but unparseable numeric or date cell aborts
  the plan with that cell's error.
- **Validate**: one account-mismatch error for every bill whose account number is set and
  differs from the uploaded one.

The library parsers the adapter calls are a parameter of every operation: `time.Parse`
with RFC 3339 and with "1/2/06", `data.Float` and `strconv.Atoi`. Each is a partial map
from the texts it accepts to their values. Every property below therefore holds whatever
those parsers accept.

Modules:

- `Wrappers`: Option and Result.
- `Calendar`: the time value and the `2006-01-02` layout.
- `RowAccess`: the header index and `data.Val`.
- `Columns`: the export's columns.
- `OrderedSets`: `util.OrderedSet`, a class.
- `Scans`: the two row loops the adapter runs, "stop at the first failing row" and
  "one output per row".
- `UspsEasyPost`: the adapter.

GetBills, BuildStagingPlan and Validate are methods with the source's loops. Each is
proved equal to a specification function, and the promised properties are lemmas about
that function. `date` and `buildInvoiceNumber` are functions. `buildStagingPlan` is the
function `BuildPlan`. extractBillRecords is a method that keeps the source's order of
parses and early returns. Its twelve parse-and-check steps are grouped, as the source
groups them, into fee, dimension, zone and date helpers.

## Model

| member | source | states |
|---|---|---|
| UspsEasyPost.Date | usps_easypost_transform/refernce_go_Script.go:173-190 | an empty cell gives the zero time without error; otherwise the result fails exactly when neither RFC 3339 nor "1/2/06" accepts the cell (RFC 3339 tried first), and the error names the header and the value |
| Calendar.AppendInt | usps_easypost_transform/refernce_go_Script.go:63 | Go's zero-padded `appendInt` gives at least `width` characters, starts with '-' exactly for a negative value, and renders a value below 10^width in exactly `width` digits that read back as the value |
| Calendar.FormatDate | usps_easypost_transform/refernce_go_Script.go:63 | `Format("2006-01-02")` of a date with a four-digit year is 10 characters that parse back to its year, month and day |
| UspsEasyPost.BuildInvoiceNumber | usps_easypost_transform/refernce_go_Script.go:60-66 | the invoice number starts with the account cell followed by "-"; for a date with a four-digit year it is 11 characters longer than the account and splits back into the account and the year, month and day |
| UspsEasyPost.InvoiceNumberLength | usps_easypost_transform/refernce_go_Script.go:62-64 | the invoice number stays within 40 characters exactly when the account number has at most 29 |
| UspsEasyPost.InvoiceNumberInjective | usps_easypost_transform/refernce_go_Script.go:60-66 | two rows get the same invoice number only with the same account and the same calendar date |
| RowAccess.Val | usps_easypost_transform/refernce_go_Script.go:48-49 | a looked-up cell is either empty or a cell of the row |
| RowAccess.BuildHeaderIndex | usps_easypost_transform/refernce_go_Script.go:40 | the header index has exactly the header names as keys, each mapped to a position holding that name with no later header of the same name |
| RowAccess.ValMissingColumn | usps_easypost_transform/refernce_go_Script.go:48-49 | a column absent from the header reads as the empty cell |
| RowAccess.ValPresentColumn | usps_easypost_transform/refernce_go_Script.go:48-49 | a column reads the cell under its last occurrence in the header, or the empty cell when the row is too short to have it |
| OrderedSets.OrderedSet.constructor | usps_easypost_transform/refernce_go_Script.go:41 | a new ordered set is empty and has seen nothing |
| OrderedSets.OrderedSet.Add | usps_easypost_transform/refernce_go_Script.go:50-55 | a value is appended unless it is already present; the set stays the deduplication of everything added |
| OrderedSets.OrderedSet.Values | usps_easypost_transform/refernce_go_Script.go:57 | the values are the distinct added values without duplicates, in first-added order |
| OrderedSets.DedupMembers | usps_easypost_transform/refernce_go_Script.go:50-57 | deduplication keeps exactly the values of its input |
| OrderedSets.DedupNoDuplicates | usps_easypost_transform/refernce_go_Script.go:50-57 | deduplication leaves no value twice |
| OrderedSets.DedupFirstSeenOrder | usps_easypost_transform/refernce_go_Script.go:50-57 | deduplicated values come in the order of their first occurrence |
| OrderedSets.DedupOfDistinct | usps_easypost_transform/refernce_go_Script.go:50-57 | input without duplicates is returned unchanged |
| Scans.FirstErrorStays | usps_easypost_transform/refernce_go_Script.go:42-46 | once a row has failed, later rows do not change the reported error |
| Scans.FirstErrorNone | usps_easypost_transform/refernce_go_Script.go:42-46 | a loop that stops at the first failing row reports nothing exactly when every row passes |
| Scans.FirstErrorFirst | usps_easypost_transform/refernce_go_Script.go:42-46 | a reported error is that of the first failing row, all rows before it passing |
| Scans.MapSeqAt | usps_easypost_transform/refernce_go_Script.go:71-77 | output `i` of a row-by-row loop comes from row `i`, one output per row |
| Scans.MapSeqMembers | usps_easypost_transform/refernce_go_Script.go:47-55 | a value is an output of a row-by-row loop exactly when some row yields it |
| UspsEasyPost.ParseBillRow | usps_easypost_transform/refernce_go_Script.go:43-55 | one iteration of GetBills fails exactly when the creation date is rejected, with the date error; otherwise it yields the row's bill (invoice number, date, from-zip, account) |
| UspsEasyPost.GetBills | usps_easypost_transform/refernce_go_Script.go:39-58 | GetBills returns the first date error of the rows, else the deduplicated bills of all rows |
| UspsEasyPost.GetBillsSucceeds | usps_easypost_transform/refernce_go_Script.go:42-46 | GetBills succeeds exactly when no row's creation date is present and unparseable |
| UspsEasyPost.GetBillsMembers | usps_easypost_transform/refernce_go_Script.go:47-57 | on success a bill is returned exactly when some row yields it |
| UspsEasyPost.GetBillsOrder | usps_easypost_transform/refernce_go_Script.go:41-57 | on success no bill appears twice and bills come in the order of the first row yielding each |
| UspsEasyPost.GetBillsFirstError | usps_easypost_transform/refernce_go_Script.go:43-46 | on failure the error is "failed to parse invoice date" around the date error of the first rejected row |
| UspsEasyPost.Values | usps_easypost_transform/refernce_go_Script.go:160-169 | a staged row has one value per bill-table column; position 13 is the bill date and 14 the invoice number |
| UspsEasyPost.Float | usps_easypost_transform/refernce_go_Script.go:103 | `data.Float` errs exactly when the parser rejects the cell, and then yields 0 and the cell in its error |
| UspsEasyPost.Atoi | usps_easypost_transform/refernce_go_Script.go:142 | `strconv.Atoi` errs exactly when the parser rejects the text, and then yields 0 |
| UspsEasyPost.ParseFees | usps_easypost_transform/refernce_go_Script.go:103-122 | the five fee columns: the error of the first present-but-unparseable one in order, else their values |
| UspsEasyPost.ParseDimensions | usps_easypost_transform/refernce_go_Script.go:124-139 | weight, length, width and height: the error of the first present-but-unparseable one in order, else their values |
| UspsEasyPost.ParseZone | usps_easypost_transform/refernce_go_Script.go:142-145 | the zone: its error when present and unparseable, else its value |
| UspsEasyPost.ParseDates | usps_easypost_transform/refernce_go_Script.go:147-155 | the creation and label dates: the first date error in order, else both times |
| UspsEasyPost.FirstRejectedSplit | usps_easypost_transform/refernce_go_Script.go:103-155 | running the checks in two consecutive groups finds the same first rejected column as running them all |
| UspsEasyPost.ExtractBillRecords | usps_easypost_transform/refernce_go_Script.go:99-171 | extractBillRecords fails with the error of the first rejected column in parse order; otherwise it appends exactly the record's staged row to the given rows |
| UspsEasyPost.FirstRejectedNone | usps_easypost_transform/refernce_go_Script.go:103-155 | the checks find nothing exactly when no checked column is rejected |
| UspsEasyPost.FirstRejectedFirst | usps_easypost_transform/refernce_go_Script.go:103-155 | a found column is rejected and every column checked before it is not |
| UspsEasyPost.ExtractFails | usps_easypost_transform/refernce_go_Script.go:103-155 | extractBillRecords fails exactly when some parsed column is present but unparseable |
| UspsEasyPost.ExtractFirstError | usps_easypost_transform/refernce_go_Script.go:103-155 | its error wraps, with the column's step, the cause for the first rejected column: the invalid-date error for a date, the number error otherwise |
| UspsEasyPost.StagedBillMatchesBill | usps_easypost_transform/refernce_go_Script.go:47-48 | a staged row carries the same invoice number, invoice date and from-zip that GetBills derives from the record |
| UspsEasyPost.EmptyCellsAccepted | usps_easypost_transform/refernce_go_Script.go:104 | an empty cell is never an error, and an empty date reads as the zero time |
| UspsEasyPost.BuildPlan | usps_easypost_transform/refernce_go_Script.go:192-210 | the plan has exactly one batch, named usps_easypost_bill, staging exactly the rows into elt_stage.usps_easy_post_bill with the bill-table columns in chunks of 5000, and exactly one procedure call, elt_stage.usp_SyncUSPSEasyPost, waiting for that batch and taking no parameters |
| UspsEasyPost.BuildPlanShape | usps_easypost_transform/refernce_go_Script.go:200-206 | the bill batch has a positive chunk size, and every procedure of the plan waits for at least one batch and only for batches the plan stages |
| UspsEasyPost.BuildPlanFits | usps_easypost_transform/refernce_go_Script.go:198-199 | rows of 16 values fit the 16 bill-table columns |
| UspsEasyPost.BuildStagingPlan | usps_easypost_transform/refernce_go_Script.go:68-80 | BuildStagingPlan gives the empty plan and the first record's error, else the bill plan of the staged rows of all records |
| UspsEasyPost.StagingPlanSucceeds | usps_easypost_transform/refernce_go_Script.go:71-79 | it succeeds exactly when no record has a present-but-unparseable column, and on failure the plan is empty |
| UspsEasyPost.StagingPlanRows | usps_easypost_transform/refernce_go_Script.go:70-78 | on success the batch holds one row per record, row `i` being record `i`'s staged row |
| UspsEasyPost.StagingPlanWellFormed | usps_easypost_transform/refernce_go_Script.go:192-210 | on success every row fits the table's columns, the batch is usps_easypost_bill, and the plan's only procedure call is elt_stage.usp_SyncUSPSEasyPost, waiting for that batch, with no parameters |
| UspsEasyPost.StagingPlanFirstError | usps_easypost_transform/refernce_go_Script.go:71-76 | on failure the error is extractBillRecords' error for the first record it rejects |
| UspsEasyPost.Validate | usps_easypost_transform/refernce_go_Script.go:82-97 | Validate returns the account-mismatch errors of the bills, in bill order |
| UspsEasyPost.MismatchesMembers | usps_easypost_transform/refernce_go_Script.go:85-94 | an error is reported exactly for a bill whose account is non-empty and differs from the upload's, naming both accounts |
| UspsEasyPost.MismatchesAppend | usps_easypost_transform/refernce_go_Script.go:85-94 | the check never stops early: bills checked in two parts give the first part's errors followed by the second's |
| UspsEasyPost.MismatchesBound | usps_easypost_transform/refernce_go_Script.go:85-94 | at most one error per bill, and none when every account is empty or equal to the upload's |

## Left out

- `GetRecords` and `New2`: they build a record reader over an `io.Reader`. This is I/O; rows and headers are inputs of the model.
- `slog.Warn` in Validate: logging. Its format placeholders are passed as attributes, not formatted, which the model does not capture.
- The parsers' internals (`time.Parse` with both layouts, `data.Float`, `strconv.Atoi`): each is a partial map from accepted texts to values. Which texts they accept, and integer range errors, are not modelled.
- `data.Float` on a rejected cell is taken to yield 0 with its error. Its implementation is not part of this model.
- `commons.BuildHeaderIndex` and `data.Val` are not part of this model. The index is taken as name-to-position with the last occurrence winning. `Val` is taken as lookup-or-empty, including for rows shorter than the header.
- The `columns` package is not part of this model. The header strings and `BillDBColumnNames` are snake_case stand-ins, and no property depends on their spelling.
- Error texts: errors are structured values (`Wrapped(step, cause)`, `InvalidDate`, `InvalidNumber`, `AccountMismatch`). The `Step` of a wrapped error says which prefix Go's message carries ("failed to parse invoice date", "parse rate", …). The message texts, Go's `%q` quoting and `%w` rendering are not modelled.
- The `Params` closure of the procedure call is represented by the empty list it returns.
- Go slices: a nil slice and an empty slice are the same empty sequence here. This covers Validate's result when nothing mismatches, and the rows of a plan with no records.
- `time.Time` equality: Go also compares the `*time.Location` each value carries, so equal wall-clock times from separate parses may differ as map keys in `OrderedSet`. The model compares times by their fields.
- float64 rounding: parsed numbers are exact reals.
- FormatDate: its round trip is stated only for years 0 to 9999, the range both parsing layouts produce.
- BuildInvoiceNumber: its length and split-back are stated only for dates with a four-digit year, for the same reason.
- ExtractBillRecords: the twelve checks are split into four helper methods, in source order. The from-zip cell is read before the zone helper, where the source reads it; reads have no effects, so order matters only for the checks.
