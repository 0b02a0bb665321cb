/**
 * The per-payment billing record of `src/main.py` and the passes that hand it
 * to the document renderer: one invoice and one receipt file per payment, then
 * optionally two merged documents, then optionally the summary report. The
 * templates are not modelled: the renderer is a parameter, and a rendered
 * file of the first pass is represented by the record it was given.
 */
module Billing {
  import opened Wrappers
  import opened Calendar
  import opened Strftime
  import opened Ledger
  import Utils
  import Summary
  import Config
  import opened Seqs

  /** The fixed text and amount every document carries: `FROM`, `TO`, `ITEM`, `THB_AMOUNT`. */
  datatype Letterhead = Letterhead(from: string, to: string, item: string, thbAmount: int)

  /**
   * What the loops of `main` compute for one payment before handing it to the
   * renderer: the payment's dates, the due date and the exchange rate, with
   * the fixed text and amount.
   */
  datatype BillingRecord = BillingRecord(
    from: string,
    to: string,
    invoiceDate: CalendarDate,
    dueDate: CalendarDate,
    paymentDate: CalendarDate,
    item: string,
    thbAmount: int,
    usdAmount: real,
    exchangeRate: real,
    paymentMethod: string)

  /** The `data` mapping the renderer receives, one field per key. */
  datatype DocumentData = DocumentData(
    from: string,
    to: string,
    invoiceNumber: string,
    receiptNumber: string,
    invoiceDate: string,
    dueDate: string,
    paymentDate: string,
    item: string,
    thbAmount: int,
    usdAmount: real,
    exchangeRate: real,
    paymentMethod: string)

  /** `THB_AMOUNT / payment['amount']`; `None` where Python raises `ZeroDivisionError`. */
  function ExchangeRate(thbAmount: int, amount: real): (rate: Option<real>)
    ensures rate.Some? <==> amount != 0.0
    ensures rate.Some? ==> rate.value * amount == thbAmount as real
  {
    if amount == 0.0 then None else Some(thbAmount as real / amount)
  }

  /** The due date and exchange rate of a payment; `None` for a zero amount. */
  function DeriveBilling(p: Payment, head: Letterhead): (r: Option<BillingRecord>)
    ensures r.Some? <==> p.amount != 0.0
    ensures r.Some? ==> r.value.exchangeRate * p.amount == head.thbAmount as real
    ensures r.Some? ==> r.value.usdAmount == p.amount && r.value.thbAmount == head.thbAmount
  {
    match ExchangeRate(head.thbAmount, p.amount)
    case None => None
    case Some(exchangeRate) =>
      Some(BillingRecord(
        head.from,
        head.to,
        p.invoiceDate,
        Utils.DueDate(p.invoiceDate),
        p.paymentDate,
        head.item,
        head.thbAmount,
        p.amount,
        exchangeRate,
        p.paymentMethod))
  }

  /** The `data` mapping of a record, with the identifiers and dates written out inline as the loops do. */
  function Serialize(r: BillingRecord): DocumentData {
    DocumentData(
      r.from,
      r.to,
      "INV-" + CompactDate(r.invoiceDate),
      "REC-" + CompactDate(r.paymentDate),
      IsoDate(r.invoiceDate),
      IsoDate(r.dueDate),
      IsoDate(r.paymentDate),
      r.item,
      r.thbAmount,
      r.usdAmount,
      r.exchangeRate,
      r.paymentMethod)
  }

  /**
   * The `data` mapping of a payment is made of the helpers of `src/utils.py`:
   * the inline identifiers are `generate_invoice_number` and
   * `generate_receipt_number`, the dates are `format_date` of the payment's
   * dates and of `get_due_date`, and the amounts and labels are carried over.
   */
  lemma DocumentDataOfPayment(p: Payment, head: Letterhead)
    requires p.amount != 0.0
    ensures Serialize(DeriveBilling(p, head).value) == DocumentData(
      head.from,
      head.to,
      Utils.InvoiceNumber(p.invoiceDate),
      Utils.ReceiptNumber(p.paymentDate),
      Utils.FormatDate(p.invoiceDate),
      Utils.FormatDate(Utils.DueDate(p.invoiceDate)),
      Utils.FormatDate(p.paymentDate),
      head.item,
      head.thbAmount,
      p.amount,
      head.thbAmount as real / p.amount,
      p.paymentMethod)
  {
  }

  /**
   * The strings of a record's `data` mapping determine its dates: each
   * parses back to the date it was made from.
   */
  lemma {:induction false} DocumentDataDecodes(r: BillingRecord)
    ensures var d := Serialize(r);
      Utils.ParseInvoiceNumber(d.invoiceNumber) == Some(r.invoiceDate) &&
      Utils.ParseReceiptNumber(d.receiptNumber) == Some(r.paymentDate) &&
      ParseIsoDate(d.invoiceDate) == Some(r.invoiceDate) &&
      ParseIsoDate(d.dueDate) == Some(r.dueDate) &&
      ParseIsoDate(d.paymentDate) == Some(r.paymentDate)
  {
    Utils.InvoiceNumberRoundTrip(r.invoiceDate);
    Utils.ReceiptNumberRoundTrip(r.paymentDate);
    IsoDateRoundTrip(r.invoiceDate);
    IsoDateRoundTrip(r.dueDate);
    IsoDateRoundTrip(r.paymentDate);
  }

  /**
   * The records the passes build before the first zero amount stops them:
   * one per payment, in order, up to the first payment with a zero amount.
   */
  function DerivedRecords(payments: seq<Payment>, head: Letterhead): (records: seq<BillingRecord>)
    ensures |records| <= |payments|
    ensures forall k :: 0 <= k < |records| ==> DeriveBilling(payments[k], head) == Some(records[k])
    ensures |records| < |payments| ==> payments[|records|].amount == 0.0
  {
    if payments == [] then []
    else match DeriveBilling(payments[0], head)
      case None => []
      case Some(r) => [r] + DerivedRecords(payments[1..], head)
  }

  /** The record of the `i`-th payment, if the passes get that far. */
  lemma DerivedRecordAt(payments: seq<Payment>, head: Letterhead, i: nat)
    requires i < |payments| && i <= |DerivedRecords(payments, head)|
    ensures payments[i].amount == 0.0 <==> i == |DerivedRecords(payments, head)|
    ensures i < |DerivedRecords(payments, head)| ==>
      DeriveBilling(payments[i], head) == Some(DerivedRecords(payments, head)[i])
  {
  }

  /** `output/invoice_<invoice date>.pdf`, the file the first pass writes the invoice to. */
  function InvoicePath(r: BillingRecord): string {
    "output/invoice_" + IsoDate(r.invoiceDate) + ".pdf"
  }

  /** `output/receipt_<payment date>.pdf`. */
  function ReceiptPath(r: BillingRecord): string {
    "output/receipt_" + IsoDate(r.paymentDate) + ".pdf"
  }

  /** The middle of a path of the form prefix, date, `.pdf`. */
  lemma PathDate(prefix: string, a: CalendarDate, b: CalendarDate)
    requires prefix + IsoDate(a) + ".pdf" == prefix + IsoDate(b) + ".pdf"
    ensures a == b
  {
    var n := |prefix|;
    assert |Utils.FormatDate(a)| == 10 && |Utils.FormatDate(b)| == 10;
    assert (prefix + IsoDate(a) + ".pdf")[n..n + 10] == IsoDate(a);
    assert (prefix + IsoDate(b) + ".pdf")[n..n + 10] == IsoDate(b);
    Utils.FormatDateInjective(a, b);
  }

  /**
   * Two payments write the same invoice file exactly when their invoice dates
   * agree, and the same receipt file exactly when their payment dates agree:
   * a later payment with the same date overwrites the earlier file.
   */
  lemma DocumentPathsCollide(a: BillingRecord, b: BillingRecord)
    ensures InvoicePath(a) == InvoicePath(b) <==> a.invoiceDate == b.invoiceDate
    ensures ReceiptPath(a) == ReceiptPath(b) <==> a.paymentDate == b.paymentDate
  {
    if InvoicePath(a) == InvoicePath(b) {
      PathDate("output/invoice_", a.invoiceDate, b.invoiceDate);
    }
    if ReceiptPath(a) == ReceiptPath(b) {
      PathDate("output/receipt_", a.paymentDate, b.paymentDate);
    }
  }

  /**
   * The first pass over the payments: an invoice and a receipt file for each,
   * stopping (and failing the run) at the first zero amount. A rendered pair
   * of files is represented by its record: the files are `InvoicePath` and
   * `ReceiptPath` of it and show its `Serialize`.
   */
  method RenderDocuments(payments: seq<Payment>, head: Letterhead)
    returns (rendered: seq<BillingRecord>, completed: bool)
    ensures rendered == DerivedRecords(payments, head)
    ensures completed <==> forall i :: 0 <= i < |payments| ==> payments[i].amount != 0.0
  {
    ghost var records := DerivedRecords(payments, head);
    rendered := [];
    for i := 0 to |payments|
      invariant i <= |records| && rendered == records[..i]
      invariant forall j :: 0 <= j < i ==> payments[j].amount != 0.0
    {
      DerivedRecordAt(payments, head, i);
      var data := DeriveBilling(payments[i], head);
      if data.None? {
        return rendered, false;
      }
      TakeOneMore(records, i);
      rendered := rendered + [data.value];
    }
    return rendered, true;
  }

  datatype DocumentKind = Invoice | Receipt

  /**
   * `render_template` of `invoice.html` or `receipt.html`: the text
   * `create_invoice_pdf` and `create_receipt_pdf` return for a record's
   * `data` mapping, `Serialize(r)`, which is a function of the record. The
   * templates are not part of this model.
   */
  type Renderer = (DocumentKind, BillingRecord) -> string

  /** An entry of a merged element list: one character, a whole rendered document, or a page break. */
  datatype Element = Character(c: char) | Document(html: string) | PageBreak

  /** What `list.extend` adds for a `str`: each of its characters as an element of its own. */
  function Characters(s: string): (r: seq<Element>)
    ensures |r| == |s|
    ensures forall i :: 0 <= i < |s| ==> r[i] == Character(s[i])
  {
    if s == [] then [] else [Character(s[0])] + Characters(s[1..])
  }

  /**
   * The merged element list as the merged pass of `main` builds it: each
   * record's rendered text is a `str`, so `extend` adds it character by
   * character, and a page break follows.
   */
  function ExtendedDocument<R>(render: (DocumentKind, R) -> string, kind: DocumentKind, records: seq<R>): (r: seq<Element>)
    ensures |r| >= |records|
    ensures records != [] ==> r[|r| - 1] == PageBreak
  {
    if records == [] then []
    else
      ExtendedDocument(render, kind, records[..|records| - 1]) +
      Characters(render(kind, records[|records| - 1])) + [PageBreak]
  }

  /** The total length of the records' rendered texts. */
  function RenderedLength<R>(render: (DocumentKind, R) -> string, kind: DocumentKind, records: seq<R>): nat {
    if records == [] then 0
    else RenderedLength(render, kind, records[..|records| - 1]) + |render(kind, records[|records| - 1])|
  }

  /** The extended list has one element per character of every text and one page break per record. */
  lemma {:induction false} ExtendedDocumentLength<R>(render: (DocumentKind, R) -> string, kind: DocumentKind, records: seq<R>)
    ensures |ExtendedDocument(render, kind, records)| == RenderedLength(render, kind, records) + |records|
  {
    if records != [] {
      ExtendedDocumentLength(render, kind, records[..|records| - 1]);
    }
  }

  /** No element of the extended list is a whole document. */
  lemma {:induction false} ExtendedDocumentHasNoDocument<R>(render: (DocumentKind, R) -> string, kind: DocumentKind, records: seq<R>)
    ensures forall e :: e in ExtendedDocument(render, kind, records) ==> !e.Document?
  {
    if records != [] {
      ExtendedDocumentHasNoDocument(render, kind, records[..|records| - 1]);
    }
  }

  /**
   * Where the `k`-th record lands in the extended list: the list of the
   * records before it, then its text's characters and a page break, is how
   * the whole list begins.
   */
  lemma ExtendedDocumentLayout<R>(render: (DocumentKind, R) -> string, kind: DocumentKind, records: seq<R>, k: nat)
    requires k < |records|
    ensures ExtendedDocument(render, kind, records[..k]) + Characters(render(kind, records[k])) + [PageBreak] <=
      ExtendedDocument(render, kind, records)
  {
    assert records[..k + 1][..k] == records[..k];
    ExtendedDocumentPrefix(render, kind, records, k + 1);
  }

  /** The list of the first `k` records is how the whole list begins. */
  lemma {:induction false} ExtendedDocumentPrefix<R>(render: (DocumentKind, R) -> string, kind: DocumentKind, records: seq<R>, k: nat)
    requires k <= |records|
    ensures ExtendedDocument(render, kind, records[..k]) <= ExtendedDocument(render, kind, records)
    decreases |records|
  {
    if k < |records| {
      var init := records[..|records| - 1];
      ExtendedDocumentPrefix(render, kind, init, k);
      assert init[..k] == records[..k];
      PrefixOfAppend(ExtendedDocument(render, kind, records[..k]), ExtendedDocument(render, kind, init),
        Characters(render(kind, records[|records| - 1])) + [PageBreak]);
    } else {
      assert records[..k] == records;
    }
  }

  /** A renderer that writes every document as the three characters `<p>`. */
  function ParagraphRenderer(): Renderer {
    (kind, data) => "<p>"
  }

  /**
   * For one record rendered as `<p>`, the merged invoice list as built holds
   * four elements, three characters and a page break, where one document and
   * a page break were meant.
   */
  lemma ExtendedDocumentSplitsText(r: BillingRecord)
    ensures ExtendedDocument(ParagraphRenderer(), Invoice, [r]) ==
      [Character('<'), Character('p'), Character('>'), PageBreak]
    ensures MergedDocument(ParagraphRenderer(), Invoice, [r]) == [Document("<p>"), PageBreak]
  {
    assert [r][..0] == [];
  }

  /**
   * The merged element list with each record's rendered document appended as
   * one element and a page break after it, in order.
   */
  function MergedDocument<R>(render: (DocumentKind, R) -> string, kind: DocumentKind, records: seq<R>): seq<Element> {
    if records == [] then []
    else
      MergedDocument(render, kind, records[..|records| - 1]) +
      [Document(render(kind, records[|records| - 1])), PageBreak]
  }

  /** The `k`-th record's document is element `2k`, and a page break follows it. */
  lemma {:induction false} MergedDocumentPages<R>(render: (DocumentKind, R) -> string, kind: DocumentKind, records: seq<R>)
    ensures |MergedDocument(render, kind, records)| == 2 * |records|
    ensures forall k :: 0 <= k < |records| ==>
      MergedDocument(render, kind, records)[2 * k] == Document(render(kind, records[k])) &&
      MergedDocument(render, kind, records)[2 * k + 1] == PageBreak
  {
    if records != [] {
      var init := records[..|records| - 1];
      MergedDocumentPages(render, kind, init);
      var doc, prefix := MergedDocument(render, kind, records), MergedDocument(render, kind, init);
      forall k | 0 <= k < |init|
        ensures doc[2 * k] == prefix[2 * k] && doc[2 * k + 1] == prefix[2 * k + 1] && records[k] == init[k]
      {
      }
    }
  }

  /** Appending one more record to the list as built appends its text's characters and a page break. */
  lemma ExtendedDocumentAppend<R>(render: (DocumentKind, R) -> string, kind: DocumentKind, records: seq<R>, r: R)
    ensures ExtendedDocument(render, kind, records + [r]) ==
      ExtendedDocument(render, kind, records) + Characters(render(kind, r)) + [PageBreak]
  {
    assert (records + [r])[..|records|] == records;
  }

  /** Appending one more record appends its document and a page break. */
  lemma MergedDocumentAppend<R>(render: (DocumentKind, R) -> string, kind: DocumentKind, records: seq<R>, r: R)
    ensures MergedDocument(render, kind, records + [r]) ==
      MergedDocument(render, kind, records) + [Document(render(kind, r)), PageBreak]
  {
    assert (records + [r])[..|records|] == records;
  }

  /** An element as `extend` would add it: a document's characters, anything else as it is. */
  function Expand(e: Element): seq<Element> {
    if e.Document? then Characters(e.html) else [e]
  }

  /** Every element expanded, in order. */
  function Flatten(elements: seq<Element>): seq<Element> {
    if elements == [] then []
    else Flatten(elements[..|elements| - 1]) + Expand(elements[|elements| - 1])
  }

  /** Flattening distributes over concatenation. */
  lemma {:induction false} FlattenAppend(a: seq<Element>, b: seq<Element>)
    ensures Flatten(a + b) == Flatten(a) + Flatten(b)
  {
    if b == [] {
      assert a + b == a;
    } else {
      var init, last := b[..|b| - 1], b[|b| - 1];
      FlattenAppend(a, init);
      assert (a + b)[..|a + b| - 1] == a + init && (a + b)[|a + b| - 1] == last;
      calc {
        Flatten(a + b);
        Flatten(a + init) + Expand(last);
        (Flatten(a) + Flatten(init)) + Expand(last);
        { AppendAssociative(Flatten(a), Flatten(init), Expand(last)); }
        Flatten(a) + (Flatten(init) + Expand(last));
        Flatten(a) + Flatten(b);
      }
    }
  }

  /**
   * The list the merged pass builds is the intended one with each document
   * broken into its characters.
   */
  lemma {:induction false} ExtendedIsFlattenedMerged<R>(render: (DocumentKind, R) -> string, kind: DocumentKind, records: seq<R>)
    ensures ExtendedDocument(render, kind, records) == Flatten(MergedDocument(render, kind, records))
  {
    if records != [] {
      var init, text := records[..|records| - 1], render(kind, records[|records| - 1]);
      var prefix := MergedDocument(render, kind, init);
      calc {
        Flatten(MergedDocument(render, kind, records));
        Flatten(prefix + [Document(text), PageBreak]);
        { FlattenAppend(prefix, [Document(text), PageBreak]); FlattenPage(text); }
        Flatten(prefix) + (Characters(text) + [PageBreak]);
        { AppendAssociative(Flatten(prefix), Characters(text), [PageBreak]); }
        Flatten(prefix) + Characters(text) + [PageBreak];
        { ExtendedIsFlattenedMerged(render, kind, init); }
        ExtendedDocument(render, kind, init) + Characters(text) + [PageBreak];
      }
    }
  }

  /** One document and its page break flatten to the document's characters and the page break. */
  lemma FlattenPage(text: string)
    ensures Flatten([Document(text), PageBreak]) == Characters(text) + [PageBreak]
  {
    var page: seq<Element> := [Document(text)];
    assert [Document(text), PageBreak][..1] == page && page[..0] == [];
    assert Flatten(page) == [] + Characters(text) == Characters(text);
  }

  datatype MergedDocuments = MergedDocuments(invoices: seq<Element>, receipts: seq<Element>)

  /**
   * The merged pass: every payment's record again, its invoice and receipt
   * rendered and the rendered text added by `extend` to the merged invoice
   * and the merged receipt lists, character by character, with a page break
   * after each. The lists are the intended ones with every document broken
   * into its characters. The two documents are built after the loop, so a
   * zero amount leaves neither.
   */
  method BuildMergedDocuments(payments: seq<Payment>, head: Letterhead, render: Renderer)
    returns (merged: Option<MergedDocuments>)
    ensures merged.Some? <==> forall i :: 0 <= i < |payments| ==> payments[i].amount != 0.0
    ensures merged.Some? ==>
      merged.value.invoices == ExtendedDocument(render, Invoice, DerivedRecords(payments, head)) &&
      merged.value.receipts == ExtendedDocument(render, Receipt, DerivedRecords(payments, head))
    ensures merged.Some? ==>
      merged.value.invoices == Flatten(MergedDocument(render, Invoice, DerivedRecords(payments, head))) &&
      merged.value.receipts == Flatten(MergedDocument(render, Receipt, DerivedRecords(payments, head)))
  {
    ghost var records := DerivedRecords(payments, head);
    var invoices, receipts := [], [];
    for i := 0 to |payments|
      invariant i <= |records|
      invariant forall j :: 0 <= j < i ==> payments[j].amount != 0.0
      invariant invoices == ExtendedDocument(render, Invoice, records[..i])
      invariant receipts == ExtendedDocument(render, Receipt, records[..i])
    {
      DerivedRecordAt(payments, head, i);
      var record := DeriveBilling(payments[i], head);
      if record.None? {
        return None;
      }
      var invoiceText, receiptText := render(Invoice, record.value), render(Receipt, record.value);
      TakeOneMore(records, i);
      ExtendedDocumentAppend(render, Invoice, records[..i], record.value);
      ExtendedDocumentAppend(render, Receipt, records[..i], record.value);
      invoices := invoices + Characters(invoiceText) + [PageBreak];
      receipts := receipts + Characters(receiptText) + [PageBreak];
    }
    assert records[..|payments|] == records;
    ExtendedIsFlattenedMerged(render, Invoice, records);
    ExtendedIsFlattenedMerged(render, Receipt, records);
    return Some(MergedDocuments(invoices, receipts));
  }

  /** Which optional steps run: `USE_DATE_RANGE_FILTER` and its bounds, `GENERATE_MERGED_PDFS`, `GENERATE_SUMMARY_REPORT`. */
  datatype Settings = Settings(filter: DateRangeFilter, generateMerged: bool, generateSummary: bool)

  /** The settings and letterhead of `src/config.py`. */
  const ConfiguredSettings := Settings(
    DateRangeFilter(Config.UseDateRangeFilter, Config.StartDate, Config.EndDate),
    Config.GenerateMergedPdfs,
    Config.GenerateSummaryReport)

  const ConfiguredLetterhead := Letterhead(Config.From, Config.To, Config.Item, Config.ThbAmount)

  /**
   * With the configured settings the date filter is off, so a file that loads
   * gives one payment per row, and both optional passes run.
   */
  lemma ConfiguredLoadKeepsEveryRow(rows: seq<Row>, parsers: Parsers)
    requires Load(rows, parsers, ConfiguredSettings.filter).Ok?
    ensures |Load(rows, parsers, ConfiguredSettings.filter).value| == |rows|
    ensures ConfiguredSettings.generateMerged && ConfiguredSettings.generateSummary
  {
    LoadWithoutFilter(rows, parsers, ConfiguredSettings.filter);
  }

  /** How a run of `main` ends. */
  datatype RunOutcome =
    | LoadFailed(error: LoadError)
    | RenderingFailed(rendered: seq<BillingRecord>)
    | Completed(rendered: seq<BillingRecord>, merged: Option<MergedDocuments>, report: Option<Summary.SummaryReport>)

  /**
   * `main` without the backup copy, the file reading and the renderer: load
   * the rows, render every payment, then the optional merged documents and
   * summary report. Any exception ends the run where it is raised.
   */
  method Process(rows: seq<Row>, parsers: Parsers, settings: Settings, head: Letterhead, render: Renderer, today: CalendarDate)
    returns (outcome: RunOutcome)
    ensures Load(rows, parsers, settings.filter).Err? ==>
      outcome == LoadFailed(Load(rows, parsers, settings.filter).error)
    ensures Load(rows, parsers, settings.filter).Ok? ==>
      var payments := Load(rows, parsers, settings.filter).value;
      var records := DerivedRecords(payments, head);
      (outcome.RenderingFailed? <==> |records| < |payments|) &&
      (outcome.RenderingFailed? || outcome.Completed?) &&
      outcome.rendered == records &&
      (outcome.Completed? ==>
        (outcome.merged.Some? <==> settings.generateMerged) &&
        (outcome.merged.Some? ==>
          outcome.merged.value.invoices == ExtendedDocument(render, Invoice, records) &&
          outcome.merged.value.receipts == ExtendedDocument(render, Receipt, records) &&
          outcome.merged.value.invoices == Flatten(MergedDocument(render, Invoice, records)) &&
          outcome.merged.value.receipts == Flatten(MergedDocument(render, Receipt, records))) &&
        (outcome.report.Some? <==> settings.generateSummary) &&
        (outcome.report.Some? ==>
          outcome.report.value.totals == Summary.SummaryTotals(payments, head.thbAmount) &&
          outcome.report.value.unpaidMonths ==
            Summary.UnpaidMonths(Summary.PaidMonths(payments), Summary.ReportStart, MonthOf(today))))
  {
    var loaded := LoadPayments(rows, parsers, settings.filter);
    if loaded.Err? {
      return LoadFailed(loaded.error);
    }
    var payments := loaded.value;
    var rendered, completed := RenderDocuments(payments, head);
    if !completed {
      return RenderingFailed(rendered);
    }
    var merged := None;
    if settings.generateMerged {
      merged := BuildMergedDocuments(payments, head, render);
    }
    var report := None;
    if settings.generateSummary {
      var r := Summary.GenerateSummaryReport(payments, head.thbAmount, Summary.ReportStart, today);
      report := Some(r);
    }
    return Completed(rendered, merged, report);
  }
}
