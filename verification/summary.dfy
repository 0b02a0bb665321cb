/**
 * `generate_summary_report` of `src/utils.py`: the payment totals and the
 * scan for months in which no invoice was issued. The report's text and the
 * file it goes to are not modelled; the report is returned as a value.
 */
module Summary {
  import opened Calendar
  import opened Strftime
  import opened Ledger
  import opened Seqs

  /** The first month the scan checks, `date(2022, 7, 1)`. */
  const ReportStart: YearMonth := YearMonth(2022, 7)

  /** `sum(payment['amount'] for payment in payments)`, added up front to back. */
  function TotalUsd(payments: seq<Payment>): real {
    if payments == [] then 0.0 else TotalUsd(payments[..|payments| - 1]) + payments[|payments| - 1].amount
  }

  datatype Totals = Totals(count: nat, totalUsd: real, totalThb: int, averageRate: real)

  /**
   * The payment count, the USD total, the THB total (one fixed rent per
   * payment) and the average exchange rate, which is 0 unless the USD total is
   * positive.
   */
  function SummaryTotals(payments: seq<Payment>, thbAmount: int): (t: Totals)
    ensures t.count == |payments| && t.totalUsd == TotalUsd(payments)
    ensures t.totalThb == |payments| * thbAmount
    ensures t.totalUsd > 0.0 ==> t.averageRate * t.totalUsd == t.totalThb as real
    ensures t.totalUsd <= 0.0 ==> t.averageRate == 0.0
  {
    var totalUsd := TotalUsd(payments);
    var totalThb := |payments| * thbAmount;
    var averageRate := if totalUsd > 0.0 then totalThb as real / totalUsd else 0.0;
    Totals(|payments|, totalUsd, totalThb, averageRate)
  }

  /** Amounts between `lo` and `hi` add up to between `n * lo` and `n * hi`. */
  lemma TotalUsdBounds(payments: seq<Payment>, lo: real, hi: real)
    requires forall i :: 0 <= i < |payments| ==> lo <= payments[i].amount <= hi
    ensures |payments| as real * lo <= TotalUsd(payments) <= |payments| as real * hi
  {
    TotalUsdAtLeast(payments, lo);
    TotalUsdAtMost(payments, hi);
  }

  /** Amounts of at least `lo` add up to at least `n * lo`. */
  lemma {:induction false} TotalUsdAtLeast(payments: seq<Payment>, lo: real)
    requires forall i :: 0 <= i < |payments| ==> lo <= payments[i].amount
    ensures |payments| as real * lo <= TotalUsd(payments)
  {
    if payments != [] {
      var init := payments[..|payments| - 1];
      assert forall i :: 0 <= i < |init| ==> init[i] == payments[i];
      TotalUsdAtLeast(init, lo);
      AddOneAtLeast(|init|, |payments|, lo, TotalUsd(init), payments[|payments| - 1].amount);
    }
  }

  /** Amounts of at most `hi` add up to at most `n * hi`. */
  lemma {:induction false} TotalUsdAtMost(payments: seq<Payment>, hi: real)
    requires forall i :: 0 <= i < |payments| ==> payments[i].amount <= hi
    ensures TotalUsd(payments) <= |payments| as real * hi
  {
    if payments != [] {
      var init := payments[..|payments| - 1];
      assert forall i :: 0 <= i < |init| ==> init[i] == payments[i];
      TotalUsdAtMost(init, hi);
      AddOneAtMost(|init|, |payments|, hi, TotalUsd(init), payments[|payments| - 1].amount);
    }
  }

  /** The step of `TotalUsdAtLeast`: one more term of at least `b` moves the bound from `k * b` to `n * b`. */
  lemma AddOneAtLeast(k: nat, n: nat, b: real, total: real, a: real)
    requires n == k + 1 && k as real * b <= total && b <= a
    ensures n as real * b <= total + a
  {
    assert n as real * b == k as real * b + b;
  }

  /** The step of `TotalUsdAtMost`. */
  lemma AddOneAtMost(k: nat, n: nat, b: real, total: real, a: real)
    requires n == k + 1 && total <= k as real * b && a <= b
    ensures total + a <= n as real * b
  {
    assert n as real * b == k as real * b + b;
  }

  /** Dividing by a larger positive number gives no more. */
  lemma DivideByLarger(x: real, b: real, c: real)
    requires 0.0 <= x && 0.0 < b <= c
    ensures x / c <= x / b
  {
    assert x / c * c == x == x / b * b;
    assert x / c * b <= x / c * c;
  }

  /** A common positive factor cancels from a quotient. */
  lemma CancelFactor(n: real, x: real, d: real)
    requires 0.0 < n && d != 0.0
    ensures (n * x) / (n * d) == x / d
  {
    assert (x / d) * (n * d) == n * x;
  }

  /**
   * When every amount lies between `lo > 0` and `hi`, the average exchange rate
   * lies between the rate of an `hi` payment and the rate of a `lo` payment.
   */
  lemma {:induction false} AverageRateBetweenRates(payments: seq<Payment>, thbAmount: int, lo: real, hi: real)
    requires payments != [] && 0.0 < lo && 0 <= thbAmount
    requires forall i :: 0 <= i < |payments| ==> lo <= payments[i].amount <= hi
    ensures var t := SummaryTotals(payments, thbAmount);
      thbAmount as real / hi <= t.averageRate <= thbAmount as real / lo
  {
    TotalUsdBounds(payments, lo, hi);
    var n := |payments| as real;
    var total := TotalUsd(payments);
    var thb := thbAmount as real;
    assert 1.0 <= n;
    assert lo <= hi;
    assert 0.0 < n * lo by {
      assert n * lo >= 1.0 * lo;
    }
    assert SummaryTotals(payments, thbAmount).averageRate == (n * thb) / total;
    DivideByLarger(n * thb, n * lo, total);
    DivideByLarger(n * thb, total, n * hi);
    CancelFactor(n, thb, lo);
    CancelFactor(n, thb, hi);
  }

  /** When every payment is for the same amount, the average rate is that payment's rate. */
  lemma {:induction false} AverageRateOfEqualAmounts(payments: seq<Payment>, thbAmount: int, amount: real)
    requires payments != [] && 0.0 < amount && 0 <= thbAmount
    requires forall i :: 0 <= i < |payments| ==> payments[i].amount == amount
    ensures SummaryTotals(payments, thbAmount).averageRate == thbAmount as real / amount
  {
    AverageRateBetweenRates(payments, thbAmount, amount, amount);
  }

  /** `paid_months`: the `%Y-%m` labels of the payments' invoice dates. */
  function PaidMonths(payments: seq<Payment>): set<string> {
    if payments == [] then {}
    else PaidMonths(payments[..|payments| - 1]) + {MonthLabel(payments[|payments| - 1].invoiceDate)}
  }

  /** Some payment's invoice date falls in month `m`. */
  predicate Invoiced(payments: seq<Payment>, m: YearMonth) {
    exists i :: 0 <= i < |payments| && MonthOf(payments[i].invoiceDate) == m
  }

  /** The last payment adds its own invoice month to those of the others. */
  lemma InvoicedStep(payments: seq<Payment>, m: YearMonth)
    requires payments != []
    ensures Invoiced(payments, m) <==>
      Invoiced(payments[..|payments| - 1], m) || MonthOf(payments[|payments| - 1].invoiceDate) == m
  {
    var init := payments[..|payments| - 1];
    if Invoiced(init, m) {
      var i :| 0 <= i < |init| && MonthOf(init[i].invoiceDate) == m;
      assert payments[i] == init[i];
    }
    if Invoiced(payments, m) {
      var i :| 0 <= i < |payments| && MonthOf(payments[i].invoiceDate) == m;
      if i < |init| {
        assert init[i] == payments[i];
      }
    }
  }

  /** A month's label is among the paid labels exactly when some invoice falls in that month. */
  lemma {:induction false} PaidMonthsExact(payments: seq<Payment>, m: YearMonth)
    requires 0 <= m.year < 10000 && 1 <= m.month <= 12
    ensures MonthLabel(FirstDay(m)) in PaidMonths(payments) <==> Invoiced(payments, m)
  {
    if payments != [] {
      var init := payments[..|payments| - 1];
      var last := payments[|payments| - 1];
      PaidMonthsExact(init, m);
      InvoicedStep(payments, m);
      MonthLabelInjective(last.invoiceDate, FirstDay(m));
    }
  }

  /**
   * The months from `from` to `last`, both included, in order, whose label is
   * not in `paid`: what the scan loop writes.
   */
  function UnpaidMonths(paid: set<string>, from: YearMonth, last: YearMonth): seq<YearMonth>
    requires IsValidMonth(from) && last.year <= MaxYear && 1 <= last.month <= 12
    decreases MonthIndex(last) - MonthIndex(from)
  {
    if MonthIndex(last) < MonthIndex(from) then []
    else
      var here := if MonthLabel(FirstDay(from)) !in paid then [from] else [];
      here + UnpaidMonths(paid, NextMonth(from), last)
  }

  /** A month is listed exactly when it lies in the range and its label is not paid. */
  lemma {:induction false} UnpaidMonthsMembers(paid: set<string>, from: YearMonth, last: YearMonth, m: YearMonth)
    requires IsValidMonth(from) && last.year <= MaxYear && 1 <= last.month <= 12
    ensures m in UnpaidMonths(paid, from, last) <==>
      1 <= m.month <= 12 && MonthIndex(from) <= MonthIndex(m) <= MonthIndex(last) &&
      MonthLabel(FirstDay(m)) !in paid
    decreases MonthIndex(last) - MonthIndex(from)
  {
    if MonthIndex(from) <= MonthIndex(last) {
      UnpaidMonthsMembers(paid, NextMonth(from), last, m);
      if 1 <= m.month <= 12 {
        MonthIndexInjective(m, from);
      }
    }
  }

  /** The listed months are in strictly increasing chronological order, all within the range. */
  lemma {:induction false} UnpaidMonthsIncreasing(paid: set<string>, from: YearMonth, last: YearMonth)
    requires IsValidMonth(from) && last.year <= MaxYear && 1 <= last.month <= 12
    ensures forall k :: 0 <= k < |UnpaidMonths(paid, from, last)| ==>
      MonthIndex(from) <= MonthIndex(UnpaidMonths(paid, from, last)[k]) <= MonthIndex(last)
    ensures forall k, l :: 0 <= k < l < |UnpaidMonths(paid, from, last)| ==>
      MonthIndex(UnpaidMonths(paid, from, last)[k]) < MonthIndex(UnpaidMonths(paid, from, last)[l])
    decreases MonthIndex(last) - MonthIndex(from)
  {
    if MonthIndex(from) <= MonthIndex(last) {
      var next := NextMonth(from);
      UnpaidMonthsIncreasing(paid, next, last);
      var rest := UnpaidMonths(paid, next, last);
      var here := if MonthLabel(FirstDay(from)) !in paid then [from] else [];
      assert UnpaidMonths(paid, from, last) == here + rest;
      assert forall k :: 0 <= k < |rest| ==> MonthIndex(from) < MonthIndex(rest[k]);
    }
  }

  /** With nothing paid, every month of the range is listed: the `k`-th is `k` months after `from`. */
  lemma {:induction false} UnpaidMonthsWhenNothingPaid(from: YearMonth, last: YearMonth)
    requires IsValidMonth(from) && last.year <= MaxYear && 1 <= last.month <= 12
    requires MonthIndex(from) <= MonthIndex(last) + 1
    ensures var r := UnpaidMonths({}, from, last);
      |r| == MonthIndex(last) - MonthIndex(from) + 1 &&
      forall k :: 0 <= k < |r| ==> MonthIndex(r[k]) == MonthIndex(from) + k
    decreases MonthIndex(last) - MonthIndex(from)
  {
    if MonthIndex(from) <= MonthIndex(last) {
      UnpaidMonthsWhenNothingPaid(NextMonth(from), last);
    }
  }

  /** One step of the scan: the month `from` is listed first, if unpaid, then the rest. */
  lemma UnpaidMonthsStep(paid: set<string>, from: YearMonth, last: YearMonth)
    requires IsValidMonth(from) && last.year <= MaxYear && 1 <= last.month <= 12
    requires MonthIndex(from) <= MonthIndex(last)
    ensures from.year <= MaxYear
    ensures UnpaidMonths(paid, from, last) ==
      (if MonthLabel(FirstDay(from)) !in paid then [from] else []) + UnpaidMonths(paid, NextMonth(from), last)
  {
  }

  /**
   * For the labels of a payment list: a month is listed exactly when it lies in
   * the range and no payment's invoice date falls in it.
   */
  lemma {:induction false} UnpaidMonthsExact(payments: seq<Payment>, from: YearMonth, last: YearMonth, m: YearMonth)
    requires IsValidMonth(from) && last.year <= MaxYear && 1 <= last.month <= 12
    ensures m in UnpaidMonths(PaidMonths(payments), from, last) <==>
      1 <= m.month <= 12 && MonthIndex(from) <= MonthIndex(m) <= MonthIndex(last) && !Invoiced(payments, m)
  {
    UnpaidMonthsMembers(PaidMonths(payments), from, last, m);
    if 1 <= m.month <= 12 && MonthIndex(from) <= MonthIndex(m) <= MonthIndex(last) {
      PaidMonthsExact(payments, m);
    }
  }

  /** The months listed for a payment list are exactly its uninvoiced months of the range, in order. */
  lemma UnpaidMonthsOfPayments(payments: seq<Payment>, from: YearMonth, last: YearMonth)
    requires IsValidMonth(from) && last.year <= MaxYear && 1 <= last.month <= 12
    ensures var r := UnpaidMonths(PaidMonths(payments), from, last);
      (forall m :: m in r <==>
        1 <= m.month <= 12 && MonthIndex(from) <= MonthIndex(m) <= MonthIndex(last) && !Invoiced(payments, m)) &&
      forall k, l :: 0 <= k < l < |r| ==> MonthIndex(r[k]) < MonthIndex(r[l])
  {
    forall m
      ensures m in UnpaidMonths(PaidMonths(payments), from, last) <==>
        1 <= m.month <= 12 && MonthIndex(from) <= MonthIndex(m) <= MonthIndex(last) && !Invoiced(payments, m)
    {
      UnpaidMonthsExact(payments, from, last, m);
    }
    UnpaidMonthsIncreasing(PaidMonths(payments), from, last);
  }

  /**
   * One turn of the scan loop on the first day of a month not after `today`:
   * listing that month when its label is not paid keeps the months found so
   * far followed by the rest of the range equal to the whole answer.
   */
  lemma ScanStep(paid: set<string>, start: YearMonth, found: seq<YearMonth>, month: YearMonth, last: YearMonth)
    requires IsValidMonth(start) && IsValidMonth(month) && last.year <= MaxYear && 1 <= last.month <= 12
    requires MonthIndex(month) <= MonthIndex(last)
    requires found + UnpaidMonths(paid, month, last) == UnpaidMonths(paid, start, last)
    ensures month.year <= MaxYear
    ensures (found + (if MonthLabel(FirstDay(month)) !in paid then [month] else [])) +
      UnpaidMonths(paid, NextMonth(month), last) == UnpaidMonths(paid, start, last)
  {
    UnpaidMonthsStep(paid, month, last);
    AppendAssociative(found, if MonthLabel(FirstDay(month)) !in paid then [month] else [],
      UnpaidMonths(paid, NextMonth(month), last));
  }

  /**
   * The loop of `generate_summary_report`: from the first day of `start`, one
   * month at a time up to `today`, each month whose label is not among the
   * paid labels is listed.
   */
  method ScanUnpaidMonths(paid: set<string>, start: YearMonth, today: CalendarDate)
    returns (unpaid: seq<YearMonth>)
    requires IsValidMonth(start)
    ensures unpaid == UnpaidMonths(paid, start, MonthOf(today))
    ensures forall k, l :: 0 <= k < l < |unpaid| ==> MonthIndex(unpaid[k]) < MonthIndex(unpaid[l])
  {
    var current := FirstDay(start);
    unpaid := [];
    while DateLe(current, today)
      invariant current == FirstDay(MonthOf(current)) && IsValidMonth(MonthOf(current))
      invariant unpaid + UnpaidMonths(paid, MonthOf(current), MonthOf(today)) == UnpaidMonths(paid, start, MonthOf(today))
      decreases MonthIndex(MonthOf(today)) - MonthIndex(MonthOf(current))
    {
      ghost var month := MonthOf(current);
      FirstDayLe(month, today);
      ScanStep(paid, start, unpaid, month, MonthOf(today));
      var listed := if MonthLabel(current) !in paid then [MonthOf(current)] else [];
      unpaid := unpaid + listed;
      if current.month == 12 {
        current := Date(current.year + 1, 1, 1);
      } else {
        current := Date(current.year, current.month + 1, 1);
      }
      assert MonthOf(current) == NextMonth(month);
    }
    FirstDayLe(MonthOf(current), today);
    UnpaidMonthsIncreasing(paid, start, MonthOf(today));
  }

  datatype SummaryReport = SummaryReport(totals: Totals, unpaidMonths: seq<YearMonth>)

  /**
   * `generate_summary_report`, with the date of the run and the first month
   * passed in: the totals, and the months from `start` to today's month in
   * which no invoice date falls, in order.
   */
  method GenerateSummaryReport(payments: seq<Payment>, thbAmount: int, start: YearMonth, today: CalendarDate)
    returns (report: SummaryReport)
    requires IsValidMonth(start)
    ensures report.totals == SummaryTotals(payments, thbAmount)
    ensures report.unpaidMonths == UnpaidMonths(PaidMonths(payments), start, MonthOf(today))
    ensures forall m :: m in report.unpaidMonths <==>
      1 <= m.month <= 12 && MonthIndex(start) <= MonthIndex(m) <= MonthIndex(MonthOf(today)) &&
      !Invoiced(payments, m)
    ensures forall k, l :: 0 <= k < l < |report.unpaidMonths| ==>
      MonthIndex(report.unpaidMonths[k]) < MonthIndex(report.unpaidMonths[l])
  {
    var totals := SummaryTotals(payments, thbAmount);
    var paid := PaidMonths(payments);
    var unpaid := ScanUnpaidMonths(paid, start, today);
    UnpaidMonthsOfPayments(payments, start, MonthOf(today));
    report := SummaryReport(totals, unpaid);
  }
}
