/**
 * The payment ledger of `src/main.py`: the loop that turns CSV rows into the
 * `payments` list, with the optional inclusive date-range filter on the
 * payment date.
 */
module Ledger {
  import opened Wrappers
  import opened Calendar

  /** One entry of the `payments` list. */
  datatype Payment = Payment(paymentDate: CalendarDate, invoiceDate: CalendarDate, amount: real, paymentMethod: string)

  /** A row as the CSV reader yields it: its fields as text. */
  type Row = seq<string>

  /**
   * The library conversions the loop applies to a row's fields:
   * `datetime.strptime(text, "%Y-%m-%d").date()` and `float(text)`, each
   * `None` where the library raises `ValueError`.
   */
  datatype Parsers = Parsers(date: string -> Option<CalendarDate>, amount: string -> Option<real>)

  /** `USE_DATE_RANGE_FILTER`, `START_DATE` and `END_DATE`. */
  datatype DateRangeFilter = DateRangeFilter(enabled: bool, start: CalendarDate, end: CalendarDate)

  /** Why a row stops the run: the exception the loop body raises on it. */
  datatype RowError = WrongFieldCount(count: nat) | BadDate(text: string) | BadAmount(text: string)

  /** The first row that raised, by its position in the file, and why. */
  datatype LoadError = LoadError(row: nat, reason: RowError)

  /** What one pass of the loop body does with a row. */
  datatype RowOutcome = Keep(payment: Payment) | Skip | Reject(reason: RowError)

  /** Both bounds inclusive. */
  predicate InRange(filter: DateRangeFilter, d: CalendarDate) {
    DateLe(filter.start, d) && DateLe(d, filter.end)
  }

  /**
   * One pass of the loop body. The four-field unpacking comes first, then the
   * two dates, then the filter; the amount is converted only for a row the
   * filter lets through.
   */
  function ParseRow(row: Row, parsers: Parsers, filter: DateRangeFilter): (o: RowOutcome)
    ensures |row| != 4 ==> o == Reject(WrongFieldCount(|row|))
    ensures o.Skip? <==>
      |row| == 4 && parsers.date(row[0]).Some? && parsers.date(row[1]).Some? &&
      filter.enabled && !InRange(filter, parsers.date(row[0]).value)
    ensures |row| == 4 && parsers.date(row[0]).None? ==> o == Reject(BadDate(row[0]))
    ensures |row| == 4 && parsers.date(row[0]).Some? && parsers.date(row[1]).None? ==>
      o == Reject(BadDate(row[1]))
    ensures
      (|row| == 4 && parsers.date(row[0]).Some? && parsers.date(row[1]).Some? &&
       (!filter.enabled || InRange(filter, parsers.date(row[0]).value)) && parsers.amount(row[2]).None?) ==>
      o == Reject(BadAmount(row[2]))
    ensures o.Keep? <==>
      |row| == 4 && parsers.date(row[0]).Some? && parsers.date(row[1]).Some? &&
      (!filter.enabled || InRange(filter, parsers.date(row[0]).value)) && parsers.amount(row[2]).Some?
    ensures o.Keep? ==>
      |row| == 4 && (!filter.enabled || InRange(filter, o.payment.paymentDate)) &&
      parsers.date(row[0]) == Some(o.payment.paymentDate) &&
      parsers.date(row[1]) == Some(o.payment.invoiceDate) &&
      parsers.amount(row[2]) == Some(o.payment.amount) &&
      o.payment.paymentMethod == row[3]
  {
    if |row| != 4 then Reject(WrongFieldCount(|row|))
    else match parsers.date(row[0])
      case None => Reject(BadDate(row[0]))
      case Some(paymentDate) =>
        match parsers.date(row[1])
        case None => Reject(BadDate(row[1]))
        case Some(invoiceDate) =>
          if filter.enabled && !InRange(filter, paymentDate) then Skip
          else match parsers.amount(row[2])
            case None => Reject(BadAmount(row[2]))
            case Some(amount) => Keep(Payment(paymentDate, invoiceDate, amount, row[3]))
  }

  /** The whole loop: the first rejected row aborts it, skipped rows are dropped. */
  function Load(rows: seq<Row>, parsers: Parsers, filter: DateRangeFilter): Result<seq<Payment>, LoadError> {
    if rows == [] then Ok([])
    else match Load(rows[..|rows| - 1], parsers, filter)
      case Err(e) => Err(e)
      case Ok(payments) =>
        match ParseRow(rows[|rows| - 1], parsers, filter)
        case Reject(reason) => Err(LoadError(|rows| - 1, reason))
        case Skip => Ok(payments)
        case Keep(p) => Ok(payments + [p])
  }

  /** The positions of the rows the loop keeps, in file order. */
  ghost function KeptRows(rows: seq<Row>, parsers: Parsers, filter: DateRangeFilter): seq<nat> {
    if rows == [] then []
    else
      var last := if ParseRow(rows[|rows| - 1], parsers, filter).Keep? then [|rows| - 1] else [];
      KeptRows(rows[..|rows| - 1], parsers, filter) + last
  }

  /** Once a prefix of the rows has aborted the loop, the rest of the file changes nothing. */
  lemma {:induction false} LoadErrorPersists(rows: seq<Row>, parsers: Parsers, filter: DateRangeFilter, n: nat)
    requires n <= |rows| && Load(rows[..n], parsers, filter).Err?
    ensures Load(rows, parsers, filter) == Load(rows[..n], parsers, filter)
  {
    if n < |rows| {
      var init := rows[..|rows| - 1];
      assert init[..n] == rows[..n];
      LoadErrorPersists(init, parsers, filter, n);
    } else {
      assert rows[..n] == rows;
    }
  }

  /** The load fails exactly when some row is rejected. */
  lemma {:induction false} LoadFailsIffRowRejected(rows: seq<Row>, parsers: Parsers, filter: DateRangeFilter)
    ensures Load(rows, parsers, filter).Err? <==>
      exists i :: 0 <= i < |rows| && ParseRow(rows[i], parsers, filter).Reject?
  {
    if rows != [] {
      var init := rows[..|rows| - 1];
      LoadFailsIffRowRejected(init, parsers, filter);
      if Load(init, parsers, filter).Err? {
        var i :| 0 <= i < |init| && ParseRow(init[i], parsers, filter).Reject?;
        assert rows[i] == init[i];
      } else if !ParseRow(rows[|rows| - 1], parsers, filter).Reject? {
        forall i | 0 <= i < |rows|
          ensures !ParseRow(rows[i], parsers, filter).Reject?
        {
          if i < |init| {
            assert rows[i] == init[i];
          }
        }
      }
    }
  }

  /** A file whose every row has four fields that all convert loads without error. */
  lemma WellFormedFileLoads(rows: seq<Row>, parsers: Parsers, filter: DateRangeFilter)
    requires forall i :: 0 <= i < |rows| ==>
      |rows[i]| == 4 && parsers.date(rows[i][0]).Some? && parsers.date(rows[i][1]).Some? &&
      parsers.amount(rows[i][2]).Some?
    ensures Load(rows, parsers, filter).Ok?
  {
    LoadFailsIffRowRejected(rows, parsers, filter);
  }

  /** A failed load reports the first rejected row, with that row's reason. */
  lemma {:induction false} LoadFailsAtFirstRejectedRow(rows: seq<Row>, parsers: Parsers, filter: DateRangeFilter)
    requires Load(rows, parsers, filter).Err?
    ensures var e := Load(rows, parsers, filter).error;
      e.row < |rows| && ParseRow(rows[e.row], parsers, filter) == Reject(e.reason) &&
      forall j :: 0 <= j < e.row ==> !ParseRow(rows[j], parsers, filter).Reject?
  {
    var init := rows[..|rows| - 1];
    if Load(init, parsers, filter).Err? {
      LoadFailsAtFirstRejectedRow(init, parsers, filter);
      var e := Load(init, parsers, filter).error;
      forall j | 0 <= j <= e.row
        ensures rows[j] == init[j]
      {
      }
    } else {
      LoadFailsIffRowRejected(init, parsers, filter);
      forall j | 0 <= j < |init|
        ensures rows[j] == init[j]
      {
      }
    }
  }

  /** The kept positions are rows of the file, in increasing order, and include every row kept. */
  lemma {:induction false} KeptRowsOrdered(rows: seq<Row>, parsers: Parsers, filter: DateRangeFilter)
    ensures var kept := KeptRows(rows, parsers, filter);
      (forall k :: 0 <= k < |kept| ==> kept[k] < |rows|) &&
      (forall k, l :: 0 <= k < l < |kept| ==> kept[k] < kept[l]) &&
      (forall i :: 0 <= i < |rows| && ParseRow(rows[i], parsers, filter).Keep? ==> i in kept)
  {
    if rows != [] {
      var init := rows[..|rows| - 1];
      KeptRowsOrdered(init, parsers, filter);
      forall i | 0 <= i < |init|
        ensures rows[i] == init[i]
      {
      }
    }
  }

  /** The `k`-th loaded payment is the one built from the `k`-th kept row. */
  lemma {:induction false} LoadedFromKeptRows(rows: seq<Row>, parsers: Parsers, filter: DateRangeFilter)
    requires Load(rows, parsers, filter).Ok?
    ensures var payments, kept := Load(rows, parsers, filter).value, KeptRows(rows, parsers, filter);
      |kept| == |payments| &&
      forall k :: 0 <= k < |kept| ==> kept[k] < |rows| && ParseRow(rows[kept[k]], parsers, filter) == Keep(payments[k])
  {
    if rows != [] {
      var init := rows[..|rows| - 1];
      LoadedFromKeptRows(init, parsers, filter);
      var kept0 := KeptRows(init, parsers, filter);
      forall k | 0 <= k < |kept0|
        ensures rows[kept0[k]] == init[kept0[k]]
      {
      }
    }
  }

  /**
   * A successful load holds exactly the kept rows' payments, in the order of
   * their rows in the file, each built from its own row's fields.
   */
  lemma LoadKeepsOrder(rows: seq<Row>, parsers: Parsers, filter: DateRangeFilter)
    requires Load(rows, parsers, filter).Ok?
    ensures var payments, kept := Load(rows, parsers, filter).value, KeptRows(rows, parsers, filter);
      |kept| == |payments| &&
      (forall k :: 0 <= k < |kept| ==> kept[k] < |rows| && ParseRow(rows[kept[k]], parsers, filter) == Keep(payments[k])) &&
      (forall k, l :: 0 <= k < l < |kept| ==> kept[k] < kept[l]) &&
      (forall i :: 0 <= i < |rows| && ParseRow(rows[i], parsers, filter).Keep? ==> i in kept)
  {
    KeptRowsOrdered(rows, parsers, filter);
    LoadedFromKeptRows(rows, parsers, filter);
  }

  /** With the filter switched off, every row is kept, one payment per row in the same position. */
  lemma {:induction false} LoadWithoutFilter(rows: seq<Row>, parsers: Parsers, filter: DateRangeFilter)
    requires !filter.enabled && Load(rows, parsers, filter).Ok?
    ensures var payments := Load(rows, parsers, filter).value;
      |payments| == |rows| &&
      forall i :: 0 <= i < |rows| ==> ParseRow(rows[i], parsers, filter) == Keep(payments[i])
  {
    if rows != [] {
      var init := rows[..|rows| - 1];
      LoadWithoutFilter(init, parsers, filter);
      forall i | 0 <= i < |init|
        ensures rows[i] == init[i]
      {
      }
    }
  }

  /** With the filter switched on, every loaded payment was made within the range. */
  lemma {:induction false} LoadRespectsFilter(rows: seq<Row>, parsers: Parsers, filter: DateRangeFilter)
    requires filter.enabled && Load(rows, parsers, filter).Ok?
    ensures forall p :: p in Load(rows, parsers, filter).value ==> InRange(filter, p.paymentDate)
  {
    if rows != [] {
      LoadRespectsFilter(rows[..|rows| - 1], parsers, filter);
    }
  }

  /** The row loop of `main`: reads each row, aborting on the first one that raises. */
  method LoadPayments(rows: seq<Row>, parsers: Parsers, filter: DateRangeFilter)
    returns (result: Result<seq<Payment>, LoadError>)
    ensures result == Load(rows, parsers, filter)
  {
    var payments: seq<Payment> := [];
    for i := 0 to |rows|
      invariant Load(rows[..i], parsers, filter) == Ok(payments)
    {
      assert rows[..i + 1][..i] == rows[..i];
      var row := rows[i];
      if |row| != 4 {
        LoadErrorPersists(rows, parsers, filter, i + 1);
        return Err(LoadError(i, WrongFieldCount(|row|)));
      }
      var paymentDate := parsers.date(row[0]);
      if paymentDate.None? {
        LoadErrorPersists(rows, parsers, filter, i + 1);
        return Err(LoadError(i, BadDate(row[0])));
      }
      var invoiceDate := parsers.date(row[1]);
      if invoiceDate.None? {
        LoadErrorPersists(rows, parsers, filter, i + 1);
        return Err(LoadError(i, BadDate(row[1])));
      }
      if filter.enabled {
        if !(DateLe(filter.start, paymentDate.value) && DateLe(paymentDate.value, filter.end)) {
          continue;
        }
      }
      var amount := parsers.amount(row[2]);
      if amount.None? {
        LoadErrorPersists(rows, parsers, filter, i + 1);
        return Err(LoadError(i, BadAmount(row[2])));
      }
      payments := payments + [Payment(paymentDate.value, invoiceDate.value, amount.value, row[3])];
    }
    assert rows[..|rows|] == rows;
    return Ok(payments);
  }
}
