/**
 * The calendar and identifier rules of `src/utils.py`: the due date of an
 * invoice, and the invoice, receipt and display strings keyed by a date.
 */
module Utils {
  import opened Wrappers
  import opened Calendar
  import opened Strftime

  /**
   * `get_due_date`: day 30 of a month that has more than 30 days; in February,
   * March 2 when February has 29 days and March 1 otherwise; in any other month,
   * its last day.
   */
  function DueDate(invoice: CalendarDate): (due: CalendarDate)
    ensures due.year == invoice.year
    ensures invoice.month != 2 ==> due == Date(invoice.year, invoice.month, 30)
    ensures invoice.month == 2 ==> due == Date(invoice.year, 3, if IsLeapYear(invoice.year) then 2 else 1)
  {
    var year, month := invoice.year, invoice.month;
    var lastDay := DaysInMonth(year, month);
    if lastDay > 30 then Date(year, month, 30)
    else if month == 2 then (if lastDay == 29 then Date(year, 3, 2) else Date(year, 3, 1))
    else Date(year, month, lastDay)
  }

  /** A 31-day month takes the "more than 30 days" branch: day 30 of the same month. */
  lemma DueDateLongMonth(invoice: CalendarDate)
    requires DaysInMonth(invoice.year, invoice.month) == 31
    ensures DueDate(invoice) == Date(invoice.year, invoice.month, 30)
    ensures DueDate(invoice).day < DaysInMonth(invoice.year, invoice.month)
  {
  }

  /** A 30-day month takes the "last day" branch, which is again day 30. */
  lemma DueDateThirtyDayMonth(invoice: CalendarDate)
    requires DaysInMonth(invoice.year, invoice.month) == 30
    ensures DueDate(invoice) == Date(invoice.year, invoice.month, DaysInMonth(invoice.year, invoice.month))
    ensures DueDate(invoice).day == 30
  {
  }

  /** The due date depends on the invoice's month only, never on its day. */
  lemma DueDateIgnoresDay(a: CalendarDate, b: CalendarDate)
    requires MonthOf(a) == MonthOf(b)
    ensures DueDate(a) == DueDate(b)
  {
  }

  /**
   * The due date is never before the invoice date, except for an invoice
   * dated the 31st, whose due date is the day before it.
   */
  lemma DueDateNotBeforeInvoice(invoice: CalendarDate)
    ensures invoice.day <= 30 ==> DateLe(invoice, DueDate(invoice))
    ensures invoice.day == 31 ==> DueDate(invoice) == Date(invoice.year, invoice.month, 30)
  {
  }

  /** `generate_invoice_number`: `INV-` and the date as `YYYYMMDD`. */
  function InvoiceNumber(d: CalendarDate): (s: string)
    ensures |s| == 12 && s[..4] == "INV-" && AllDigits(s[4..])
  {
    "INV-" + CompactDate(d)
  }

  /** `generate_receipt_number`: `REC-` and the date as `YYYYMMDD`. */
  function ReceiptNumber(d: CalendarDate): (s: string)
    ensures |s| == 12 && s[..4] == "REC-" && AllDigits(s[4..])
  {
    "REC-" + CompactDate(d)
  }

  /** `format_date`: the date as `YYYY-MM-DD`. */
  function FormatDate(d: CalendarDate): (s: string)
    ensures |s| == 10 && s[4] == '-' && s[7] == '-'
    ensures AllDigits(s[..4]) && AllDigits(s[5..7]) && AllDigits(s[8..])
  {
    assert IsoDate(d)[..4] == Pad4(d.year) && IsoDate(d)[5..7] == Pad2(d.month) && IsoDate(d)[8..] == Pad2(d.day);
    IsoDate(d)
  }

  /** The date an identifier with the given prefix encodes, if it is one. */
  function ParseIdentifier(prefix: string, s: string): Option<CalendarDate>
    requires |prefix| == 4
  {
    if |s| == 12 && s[..4] == prefix then ParseCompactDate(s[4..]) else None
  }

  function ParseInvoiceNumber(s: string): Option<CalendarDate> {
    ParseIdentifier("INV-", s)
  }

  function ParseReceiptNumber(s: string): Option<CalendarDate> {
    ParseIdentifier("REC-", s)
  }

  lemma {:induction false} InvoiceNumberRoundTrip(d: CalendarDate)
    ensures ParseInvoiceNumber(InvoiceNumber(d)) == Some(d)
  {
    assert InvoiceNumber(d)[4..] == CompactDate(d);
    CompactDateRoundTrip(d);
  }

  /** Every string the invoice-number parser accepts is the number of the date it yields. */
  lemma {:induction false} ParseInvoiceNumberSound(s: string)
    requires ParseInvoiceNumber(s).Some?
    ensures InvoiceNumber(ParseInvoiceNumber(s).value) == s
  {
    ParseCompactDateSound(s[4..]);
    assert s == s[..4] + s[4..];
  }

  lemma {:induction false} InvoiceNumberInjective(a: CalendarDate, b: CalendarDate)
    ensures InvoiceNumber(a) == InvoiceNumber(b) <==> a == b
  {
    InvoiceNumberRoundTrip(a);
    InvoiceNumberRoundTrip(b);
  }

  lemma {:induction false} ReceiptNumberRoundTrip(d: CalendarDate)
    ensures ParseReceiptNumber(ReceiptNumber(d)) == Some(d)
  {
    assert ReceiptNumber(d)[4..] == CompactDate(d);
    CompactDateRoundTrip(d);
  }

  lemma {:induction false} ParseReceiptNumberSound(s: string)
    requires ParseReceiptNumber(s).Some?
    ensures ReceiptNumber(ParseReceiptNumber(s).value) == s
  {
    ParseCompactDateSound(s[4..]);
    assert s == s[..4] + s[4..];
  }

  lemma {:induction false} ReceiptNumberInjective(a: CalendarDate, b: CalendarDate)
    ensures ReceiptNumber(a) == ReceiptNumber(b) <==> a == b
  {
    ReceiptNumberRoundTrip(a);
    ReceiptNumberRoundTrip(b);
  }

  /** An invoice number is never a receipt number, whatever the two dates. */
  lemma InvoiceNumberIsNotReceiptNumber(a: CalendarDate, b: CalendarDate)
    ensures InvoiceNumber(a) != ReceiptNumber(b)
  {
    assert InvoiceNumber(a)[0] != ReceiptNumber(b)[0];
  }

  lemma {:induction false} FormatDateRoundTrip(d: CalendarDate)
    ensures ParseIsoDate(FormatDate(d)) == Some(d)
  {
    IsoDateRoundTrip(d);
  }

  lemma {:induction false} FormatDateInjective(a: CalendarDate, b: CalendarDate)
    ensures FormatDate(a) == FormatDate(b) <==> a == b
  {
    IsoDateRoundTrip(a);
    IsoDateRoundTrip(b);
  }
}
