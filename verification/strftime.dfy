/**
 * The three `strftime` patterns the billing code uses on dates, `%Y%m%d`,
 * `%Y-%m-%d` and `%Y-%m`, with `%Y` a zero-padded four-digit year and `%m`,
 * `%d` zero-padded two-digit numbers, together with the parsers that undo them.
 */
module Strftime {
  import opened Wrappers
  import opened Calendar

  predicate IsDigit(c: char) {
    '0' <= c <= '9'
  }

  predicate AllDigits(s: string) {
    forall i :: 0 <= i < |s| ==> IsDigit(s[i])
  }

  function Digit(n: int): (c: char)
    requires 0 <= n <= 9
    ensures IsDigit(c) && DigitValue(c) == n
  {
    ('0' as int + n) as char
  }

  function DigitValue(c: char): int {
    c as int - '0' as int
  }

  function Pow10(w: nat): (p: nat)
    ensures 1 <= p
  {
    if w == 0 then 1 else 10 * Pow10(w - 1)
  }

  /** `%0<w>d`: the last `w` decimal digits of `n`, most significant first. */
  function PadDigits(n: nat, w: nat): (s: string)
    ensures |s| == w && AllDigits(s)
  {
    if w == 0 then [] else PadDigits(n / 10, w - 1) + [Digit(n % 10)]
  }

  /** The number a string of decimal digits denotes. */
  function DigitsValue(s: string): int {
    if s == [] then 0 else 10 * DigitsValue(s[..|s| - 1]) + DigitValue(s[|s| - 1])
  }

  /** Reading back `w` padded digits gives the number, when it has at most `w` digits. */
  lemma {:induction false} PadDigitsInverse(n: nat, w: nat)
    requires n < Pow10(w)
    ensures DigitsValue(PadDigits(n, w)) == n
  {
    if w > 0 {
      var s := PadDigits(n, w);
      PadDigitsInverse(n / 10, w - 1);
      assert s[..|s| - 1] == PadDigits(n / 10, w - 1);
    }
  }

  /** Padding the value of a digit string to its own length gives the string back. */
  lemma {:induction false} DigitsValueInverse(s: string)
    requires AllDigits(s)
    ensures 0 <= DigitsValue(s) < Pow10(|s|)
    ensures PadDigits(DigitsValue(s), |s|) == s
  {
    if s != [] {
      var init, c := s[..|s| - 1], s[|s| - 1];
      assert IsDigit(c);
      DigitsValueInverse(init);
      var v := DigitsValue(s);
      assert v / 10 == DigitsValue(init) && v % 10 == DigitValue(c);
      assert s == init + [c];
    }
  }

  /** `%02d`. */
  function Pad2(n: nat): (s: string)
    ensures |s| == 2 && AllDigits(s)
  {
    PadDigits(n, 2)
  }

  /** `%04d`. */
  function Pad4(n: nat): (s: string)
    ensures |s| == 4 && AllDigits(s)
  {
    PadDigits(n, 4)
  }

  /** `date.strftime('%Y%m%d')`. */
  function CompactDate(d: CalendarDate): string
  {
    Pad4(d.year) + Pad2(d.month) + Pad2(d.day)
  }

  /** `date.strftime('%Y-%m-%d')`. */
  function IsoDate(d: CalendarDate): string
  {
    Pad4(d.year) + "-" + Pad2(d.month) + "-" + Pad2(d.day)
  }

  /** `date.strftime('%Y-%m')`: the label of the month a date falls in. */
  function MonthLabel(d: Date): (s: string)
    requires 0 <= d.year < 10000 && 1 <= d.month <= 12
    ensures |s| == 7 && s[4] == '-'
  {
    Pad4(d.year) + "-" + Pad2(d.month)
  }

  /** The date written by eight digits `YYYYMMDD`, if there is one. */
  function ParseCompactDate(s: string): Option<CalendarDate> {
    if |s| == 8 && AllDigits(s) then
      var d := Date(DigitsValue(s[..4]), DigitsValue(s[4..6]), DigitsValue(s[6..]));
      if IsValidDate(d) then Some(d) else None
    else None
  }

  /** The date written as `YYYY-MM-DD`, if there is one. */
  function ParseIsoDate(s: string): Option<CalendarDate> {
    if |s| == 10 && s[4] == '-' && s[7] == '-' then
      ParseCompactDate(s[..4] + s[5..7] + s[8..])
    else None
  }

  /** The month written as `YYYY-MM`, if the text is one. */
  function ParseMonthLabel(s: string): Option<YearMonth> {
    if |s| == 7 && s[4] == '-' && AllDigits(s[..4]) && AllDigits(s[5..]) then
      var m := YearMonth(DigitsValue(s[..4]), DigitsValue(s[5..]));
      if 1 <= m.month <= 12 then Some(m) else None
    else None
  }

  lemma {:induction false} CompactDateRoundTrip(d: CalendarDate)
    ensures ParseCompactDate(CompactDate(d)) == Some(d)
  {
    var s := CompactDate(d);
    assert s[..4] == Pad4(d.year) && s[4..6] == Pad2(d.month) && s[6..] == Pad2(d.day);
    PadDigitsInverse(d.year, 4);
    PadDigitsInverse(d.month, 2);
    PadDigitsInverse(d.day, 2);
  }

  lemma {:induction false} ParseCompactDateSound(s: string)
    requires ParseCompactDate(s).Some?
    ensures CompactDate(ParseCompactDate(s).value) == s
  {
    var d := ParseCompactDate(s).value;
    var year, month, day := s[..4], s[4..6], s[6..];
    assert AllDigits(year) && AllDigits(month) && AllDigits(day);
    DigitsValueInverse(year);
    DigitsValueInverse(month);
    DigitsValueInverse(day);
    assert Pad4(d.year) == year && Pad2(d.month) == month && Pad2(d.day) == day;
    assert s == year + month + day;
  }

  lemma {:induction false} IsoDateRoundTrip(d: CalendarDate)
    ensures ParseIsoDate(IsoDate(d)) == Some(d)
  {
    var s := IsoDate(d);
    assert s[..4] == Pad4(d.year);
    assert s[5..7] == Pad2(d.month);
    assert s[8..] == Pad2(d.day);
    assert s[..4] + s[5..7] + s[8..] == CompactDate(d);
    CompactDateRoundTrip(d);
  }

  lemma {:induction false} ParseIsoDateSound(s: string)
    requires ParseIsoDate(s).Some?
    ensures IsoDate(ParseIsoDate(s).value) == s
  {
    var t := s[..4] + s[5..7] + s[8..];
    ParseCompactDateSound(t);
    var d := ParseIsoDate(s).value;
    assert t[..4] == s[..4] && t[4..6] == s[5..7] && t[6..] == s[8..];
    assert Pad4(d.year) == s[..4] && Pad2(d.month) == s[5..7] && Pad2(d.day) == s[8..];
    assert s == s[..4] + "-" + s[5..7] + "-" + s[8..];
  }

  lemma {:induction false} MonthLabelRoundTrip(d: Date)
    requires 0 <= d.year < 10000 && 1 <= d.month <= 12
    ensures ParseMonthLabel(MonthLabel(d)) == Some(MonthOf(d))
  {
    var s := MonthLabel(d);
    assert s[..4] == Pad4(d.year) && s[5..] == Pad2(d.month);
    PadDigitsInverse(d.year, 4);
    PadDigitsInverse(d.month, 2);
  }

  /** Two dates share a `%Y-%m` label exactly when they fall in the same month. */
  lemma {:induction false} MonthLabelInjective(a: Date, b: Date)
    requires 0 <= a.year < 10000 && 1 <= a.month <= 12
    requires 0 <= b.year < 10000 && 1 <= b.month <= 12
    ensures MonthLabel(a) == MonthLabel(b) <==> MonthOf(a) == MonthOf(b)
  {
    MonthLabelRoundTrip(a);
    MonthLabelRoundTrip(b);
  }
}
