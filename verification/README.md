# Rent invoices and receipts: a Dafny model

The invoice system turns a CSV list of rent payments into documents. Every
payment row holds a payment date, an invoice date, a USD amount and a
payment method. For each payment the program writes an invoice PDF and a
receipt PDF, both for a fixed monthly rent in Thai baht. Optionally it also
builds one merged PDF of all invoices and one of all receipts. Optionally it
writes a summary report with the totals and the months since July 2022 in
which no invoice was issued.

This project models the logic of that program in Dafny:

- `seqs.dfy`: generic facts about sequences used by the loop proofs.
- `calendar.dfy`: the Gregorian calendar of Python's `datetime.date` and
  `calendar.monthrange`. It covers years 1 to 9999, month lengths with the
  leap-day rule, the order of dates, and calendar months.
- `strftime.dfy`: the three date formats the code writes (`%Y%m%d`,
  `%Y-%m-%d`, `%Y-%m`), plus parsers that undo them, used to state round
  trips.
- `config.dfy`: the constants of `src/config.py` that the logic reads.
- `utils.dfy`: `get_due_date`, `generate_invoice_number`,
  `generate_receipt_number` and `format_date`.
- `ledger.dfy`: the row loop of `main`. It unpacks four fields, converts the
  two dates, applies the optional inclusive date-range filter, then converts
  the amount. Any exception aborts the run.
- `summary.dfy`: `generate_summary_report`. It computes the count and the USD
  and THB totals. The average rate is 0 unless the USD total is positive. The
  unpaid months come from a month-by-month loop from `date(2022, 7, 1)` up to
  today.
- `billing.dfy`: the per-payment record and the two passes over the
  payments, and the whole run (`Process`):
  - the record is the due date and the exchange rate, which raises
    `ZeroDivisionError` on a zero amount;
  - the `data` mapping given to the renderer is the record's `Serialize`;
  - the first pass writes one invoice and one receipt file per payment;
  - the optional merged pass renders each payment's invoice and receipt
    again and adds them to two element lists, each followed by a page break.
    The renderer returns the document as a `str`, so `extend` adds it one
    character at a time (see Findings). `BuildMergedDocuments` and `Process`
    build that list, `ExtendedDocument`. `MergedDocument`, with one element
    per document, is the intended list; the list as built is proved to be
    the intended one with each document broken into its characters.

Exceptions are modelled as values:

- `Result` for the row loop;
- `Option` where a zero amount raises;
- `RunOutcome` for where the run stops.

Amounts are exact reals. The library conversions (`strptime`, `float`), the
run date (`date.today()`) and the template renderer are parameters. A PDF
file of the first pass is represented by the record it shows.

The February due date is March 2 in a leap year and March 1 otherwise, as
`src/utils.py:15` writes it, and the model keeps that rule.

## Model

| member | source | states |
|---|---|---|
| Calendar.DaysInMonth | src/utils.py:10 | `monthrange(year, month)[1]` is 28 to 31: 31 exactly for months 1, 3, 5, 7, 8, 10, 12; 30 exactly for 4, 6, 9, 11; under 30 exactly for February; 29 exactly for February of a leap year |
| Calendar.NextMonth | src/utils.py:51-54 | stepping to the next month gives a valid month whose index is one more (December rolls over to January of the next year) |
| Calendar.FirstDayLe | src/utils.py:48 | for the first day of a month, `current_month <= end_date` holds exactly when that month is not after the month of `end_date` |
| Strftime.PadDigitsInverse | src/utils.py:21 | a number below 10^w written as w zero-padded digits reads back as the same number |
| Strftime.CompactDateRoundTrip | src/utils.py:21 | `%Y%m%d` of a date parses back to that date |
| Strftime.ParseCompactDateSound | src/utils.py:21 | every eight-digit string that names a date is `%Y%m%d` of that date |
| Strftime.IsoDateRoundTrip | src/utils.py:27 | `%Y-%m-%d` of a date parses back to that date |
| Strftime.ParseIsoDateSound | src/utils.py:27 | every `YYYY-MM-DD` string that names a date is `%Y-%m-%d` of that date |
| Strftime.MonthLabel | src/utils.py:46 | the `%Y-%m` label is seven characters with a dash at position 4 |
| Strftime.MonthLabelRoundTrip | src/utils.py:46 | a date's `%Y-%m` label parses back to the date's month |
| Strftime.MonthLabelInjective | src/utils.py:46-49 | two dates share a `%Y-%m` label exactly when they fall in the same month, so the scan's label test is a test on months |
| Utils.DueDate | src/utils.py:8-18 | the due date stays in the invoice's year; it is day 30 of the invoice's month unless the month is February; for February it is March 2 in a leap year and March 1 otherwise |
| Utils.DueDateLongMonth | src/utils.py:11-12 | in a 31-day month the due date is day 30, one before the month's last day |
| Utils.DueDateThirtyDayMonth | src/utils.py:16-17 | in a 30-day month the due date is the month's last day |
| Utils.DueDateIgnoresDay | src/utils.py:8-18 | two invoice dates in the same month have the same due date |
| Utils.DueDateNotBeforeInvoice | src/utils.py:8-18 | the due date is on or after the invoice date unless the invoice is dated the 31st, which gives day 30 of that month |
| Utils.InvoiceNumber | src/utils.py:20-21 | the invoice number is 12 characters: `INV-` and eight digits |
| Utils.ReceiptNumber | src/utils.py:23-24 | the receipt number is 12 characters: `REC-` and eight digits |
| Utils.FormatDate | src/utils.py:26-27 | the formatted date is four digits, a dash, two digits, a dash, two digits |
| Utils.InvoiceNumberRoundTrip | src/utils.py:20-21 | an invoice number parses back to its date |
| Utils.ParseInvoiceNumberSound | src/utils.py:20-21 | every string the invoice-number parser accepts is the invoice number of the date it yields |
| Utils.InvoiceNumberInjective | src/utils.py:20-21 | two dates have the same invoice number exactly when they are the same date |
| Utils.ReceiptNumberRoundTrip | src/utils.py:23-24 | a receipt number parses back to its date |
| Utils.ParseReceiptNumberSound | src/utils.py:23-24 | every string the receipt-number parser accepts is the receipt number of the date it yields |
| Utils.ReceiptNumberInjective | src/utils.py:23-24 | two dates have the same receipt number exactly when they are the same date |
| Utils.InvoiceNumberIsNotReceiptNumber | src/utils.py:20-24 | no invoice number equals any receipt number |
| Utils.FormatDateRoundTrip | src/utils.py:26-27 | a formatted date parses back to the date |
| Utils.FormatDateInjective | src/utils.py:26-27 | two dates format the same exactly when they are the same date |
| Ledger.ParseRow | src/main.py:21-34 | a row without exactly four fields is rejected with its field count; otherwise an unconvertible payment date, then an unconvertible invoice date, is rejected with that field; a row is skipped exactly when both dates convert, the filter is on and the payment date is outside it; past the filter an unconvertible amount is rejected with that field; a row is kept exactly when it has four fields, both dates and the amount convert and the filter is off or admits the payment date; a kept row's payment holds the converted dates, the converted amount and the fourth field |
| Ledger.LoadErrorPersists | src/main.py:20-34 | once a prefix of the rows has raised, the whole file fails with the same error |
| Ledger.LoadFailsIffRowRejected | src/main.py:20-34 | loading fails exactly when some row raises |
| Ledger.LoadFailsAtFirstRejectedRow | src/main.py:20-34 | a failed load reports a row that raises, with that row's reason, and no earlier row raises |
| Ledger.KeptRowsOrdered | src/main.py:25-34 | the positions of kept rows are rows of the file, strictly increasing, and include every row the loop keeps |
| Ledger.LoadedFromKeptRows | src/main.py:29-34 | the k-th loaded payment is the payment of the k-th kept row |
| Ledger.LoadKeepsOrder | src/main.py:20-34 | a successful load holds exactly the kept rows' payments, in file order, each built from its own row |
| Ledger.LoadWithoutFilter | src/main.py:25-34 | with the filter off, a successful load has one payment per row, in the same position |
| Ledger.LoadRespectsFilter | src/main.py:25-27 | with the filter on, every loaded payment's date lies within the inclusive range |
| Ledger.WellFormedFileLoads | src/main.py:20-34 | a file whose every row has four fields with convertible dates and amount loads without error, whatever the filter |
| Ledger.LoadPayments | src/main.py:17-34 | the loop returns the first error or the payment list that the row-by-row definition `Load` gives |
| Summary.SummaryTotals | src/utils.py:30-32 | the count is the number of payments; the USD total is their sum; the THB total is one rent per payment; when the USD total is positive the average rate times the USD total is the THB total, otherwise the rate is 0 |
| Summary.TotalUsdBounds | src/utils.py:30 | amounts between lo and hi add up to between n·lo and n·hi |
| Summary.TotalUsdAtLeast | src/utils.py:30 | amounts of at least lo add up to at least n·lo |
| Summary.TotalUsdAtMost | src/utils.py:30 | amounts of at most hi add up to at most n·hi |
| Summary.AverageRateBetweenRates | src/utils.py:30-32 | when every amount lies between lo > 0 and hi, the average rate lies between the rate of a payment of hi and the rate of a payment of lo |
| Summary.AverageRateOfEqualAmounts | src/utils.py:30-32 | when all payments are for the same amount, the average rate is that payment's rate |
| Summary.PaidMonthsExact | src/utils.py:46 | a month's label is among the paid labels exactly when some payment's invoice date falls in that month |
| Summary.UnpaidMonthsMembers | src/utils.py:48-54 | a month is listed exactly when it lies between the first and the last month scanned and its label is not paid |
| Summary.UnpaidMonthsIncreasing | src/utils.py:48-54 | the listed months lie within the scanned range and are in strictly increasing order |
| Summary.UnpaidMonthsWhenNothingPaid | src/utils.py:48-54 | with nothing paid, every month of the range is listed, and the k-th is k months after the first |
| Summary.UnpaidMonthsStep | src/utils.py:49-54 | proof step of the scan: one turn of the loop lists the current month if its label is unpaid, then continues from the next month |
| Summary.UnpaidMonthsExact | src/utils.py:46-54 | for a payment list, a month is listed exactly when it lies in the range and no invoice date falls in it |
| Summary.UnpaidMonthsOfPayments | src/utils.py:46-54 | the listed months are exactly the range's months without an invoice, in strictly increasing order |
| Summary.ScanStep | src/utils.py:48-54 | proof step of the scan: one turn of the loop on the first day of a month not after today keeps the months listed so far, followed by the months still to scan, equal to the whole answer |
| Summary.ScanUnpaidMonths | src/utils.py:43-54 | given the set of paid labels, the loop lists exactly the months from the start month to today's month whose label is not in the set, in strictly increasing order |
| Summary.GenerateSummaryReport | src/utils.py:29-54 | the report holds the totals and, as unpaid months, exactly the months from the start month to today's month in which no invoice date falls, in strictly increasing order |
| Billing.ExchangeRate | src/main.py:38 | the rate exists exactly when the amount is nonzero, and then the rate times the amount is the THB rent |
| Billing.DeriveBilling | src/main.py:37-38 | a payment gets a record exactly when its amount is nonzero; the record carries the payment's amount and the THB rent, and its rate times the amount is the THB rent |
| Billing.DocumentDataOfPayment | src/main.py:40-53 | a payment's `data` mapping is the fixed text, `generate_invoice_number` of the invoice date, `generate_receipt_number` of the payment date, `format_date` of the invoice date, of `get_due_date` and of the payment date, the rent, the amount, rent divided by amount, and the method |
| Billing.DocumentDataDecodes | src/main.py:43-47 | the invoice number, receipt number and the three dates of a `data` mapping each parse back to the date they were made from |
| Billing.DerivedRecords | src/main.py:36-53 | the records the passes build are one per payment, in order, up to the first zero amount, which stops them |
| Billing.DerivedRecordAt | src/main.py:36-38 | the i-th payment stops the passes exactly when its amount is zero; before that, its record is the i-th record |
| Billing.DocumentPathsCollide | src/main.py:55-56 | two payments write the same invoice file exactly when their invoice dates agree, and the same receipt file exactly when their payment dates agree |
| Billing.RenderDocuments | src/main.py:36-56 | the first pass renders exactly the records before the first zero amount and completes exactly when no amount is zero |
| Billing.ExtendedDocument | src/main.py:81-87 | the element list the merged pass builds by `extend` of each rendered `str` and `append` of a page break has at least one element per payment and, when there is a payment, ends with a page break |
| Billing.ExtendedDocumentAppend | src/main.py:84-87 | proof step of the merged pass: one more payment adds the characters of its rendered text and a page break |
| Billing.ExtendedDocumentLength | src/main.py:84-87 | the element list the merged pass builds has one element per character of every rendered text plus one page break per payment |
| Billing.ExtendedDocumentHasNoDocument | src/main.py:84-87 | no element of that list is a whole rendered document |
| Billing.ExtendedDocumentPrefix | src/main.py:84-87 | the list built for the first k payments is how the whole list begins |
| Billing.ExtendedDocumentLayout | src/main.py:84-87 | the list begins with the list of the payments before the k-th, then the characters of the k-th payment's text, then a page break |
| Billing.ExtendedDocumentSplitsText | src/main.py:84-87 | one payment rendered as `<p>` gives the four elements `<`, `p`, `>` and a page break, where the corrected list has one document and a page break |
| Billing.ExtendedIsFlattenedMerged | src/main.py:84-87 | the list as built is the corrected list with each document replaced by its characters |
| Billing.MergedDocumentPages | src/main.py:84-87 | in the corrected list the k-th payment's rendered document is element 2k, a page break follows it, and there are two elements per payment |
| Billing.MergedDocumentAppend | src/main.py:84-87 | proof step of the corrected list: appending one payment appends its rendered document and a page break |
| Billing.BuildMergedDocuments | src/main.py:58-87 | the merged pass builds both lists exactly when no amount is zero; each is the list as built, the characters of every payment's rendered invoice or receipt followed by a page break, in payment order, which is the corrected list with every document broken into its characters |
| Billing.ConfiguredLoadKeepsEveryRow | src/config.py:5-7 | with the configured flags the date filter is off, so a file that loads gives one payment per row, and both optional passes run |
| Billing.Process | src/main.py:13-96 | a run stops at a failed load with its error; otherwise the first pass renders the records up to the first zero amount and fails exactly when one exists; a completed run has merged documents exactly when they are enabled, equal to the lists the merged pass builds from the records' rendered texts (the corrected lists with every document broken into its characters), and a summary report exactly when it is enabled, with the totals and the unpaid months up to today's month |

## Left out

- The jinja2 templates behind `create_invoice_pdf` and `create_receipt_pdf` (`src/pdf_operations.py`) are not modelled. The renderer is a parameter, a function of the record; the mapping it receives is the record's `Serialize`. Writing a PDF with weasyprint is I/O, and a written file is represented by its record.
- `Billing.Process`: the run is modelled as going on past `doc.build` (`src/main.py:89-93`), which receives lists of single characters. `doc.build` is reportlab library code and is not modelled, so whether it raises on such a list is not captured; the merged lists are returned as values.
- Backup copying, opening and reading `data/payments.txt`, CSV tokenising and writing `output/summary_report.txt` are I/O. The rows arrive as lists of field strings. The report is returned as a value rather than written as text.
- `format_currency` and the report's number formatting (`:,.2f`, `:.4f`) are not modelled; the report holds the exact totals.
- Floating point is not modelled: amounts, totals and rates are exact reals. Rounding, `nan` and `inf` from `float()` are not represented.
- `datetime.strptime` and `float` are library code. They are parameters (`Ledger.Parsers`) that either give a value or signal `ValueError`.
- `date.today()` is a parameter of the scan and of `Process`.
- `Strftime.CompactDate` / `Strftime.IsoDate` / `Strftime.MonthLabel`: `%Y` is modelled as four zero-padded digits. The C library behind `strftime` may write years below 1000 with fewer digits.
- `Summary.ScanUnpaidMonths`: when today falls in December 9999, Python raises `ValueError` stepping to year 10000. The model instead steps to a month past the range and ends the loop.
- The closing `print` of `main` and the margin and page-size settings are not modelled.
- The two passes compute the same record separately. The model has one definition, `DeriveBilling`, used by both loops.

## Findings

| source | as written | input that shows it | evidently intended | confidence | as-written member | corrected member |
|---|---|---|---|---|---|---|
| src/main.py:81-87 | `create_invoice_pdf` and `create_receipt_pdf` return the rendered HTML as a `str` (`src/pdf_operations.py:21-31`), so `merged_invoice_elements.extend(invoice_elements)` adds one element per character, and `doc.build` receives single characters instead of documents | one payment whose invoice renders as `<p>`: the list is `'<'`, `'p'`, `'>'`, page break | each payment's rendered document added as one element, followed by a page break | not executed | Billing.ExtendedDocumentSplitsText | Billing.MergedDocumentPages |
