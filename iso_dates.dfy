/** Calendar dates as `java.time.LocalDate` handles them here: parsed from the
    ISO 8601 extended calendar form "YYYY-MM-DD" (`DateTimeFormatter.ISO_LOCAL_DATE`,
    strict), compared with `isBefore`, and stepped back with `minusDays`. */
module IsoDates {
  import opened Wrappers
  import opened AsciiText

  datatype Date = Date(year: int, month: int, day: int)

  /** Gregorian leap years, as in the proleptic ISO calendar. */
  predicate IsLeapYear(y: int) {
    y % 4 == 0 && (y % 100 != 0 || y % 400 == 0)
  }

  function DaysInMonth(y: int, m: int): int
    requires 1 <= m <= 12
  {
    if m == 2 then (if IsLeapYear(y) then 29 else 28)
    else if m == 4 || m == 6 || m == 9 || m == 11 then 30
    else 31
  }

  predicate ValidDate(d: Date) {
    1 <= d.month <= 12 && 1 <= d.day <= DaysInMonth(d.year, d.month)
  }

  /** A date that exists in the calendar. */
  type LocalDate = d: Date | ValidDate(d) witness Date(2000, 1, 1)

  /** `a.isBefore(b)`: year, then month, then day. */
  predicate IsBefore(a: Date, b: Date) {
    a.year < b.year || (a.year == b.year && (a.month < b.month || (a.month == b.month && a.day < b.day)))
  }

  // ---------------------------------------------------------------------------
  // Text form
  // ---------------------------------------------------------------------------

  predicate IsDigit(c: char) { '0' <= c <= '9' }

  function DigitValue(c: char): int { c as int - '0' as int }

  function Digit(n: int): char
    requires 0 <= n <= 9
  {
    ('0' as int + n) as char
  }

  /** Two decimal digits, zero-padded. */
  function Pad2(n: int): string
    requires 0 <= n <= 99
  {
    [Digit(n / 10), Digit(n % 10)]
  }

  /** `ISO_LOCAL_DATE.format` for years 0 to 9999. */
  function FormatIsoDate(d: LocalDate): (r: string)
    requires 0 <= d.year <= 9999
    ensures |r| == 10
  {
    Pad2(d.year / 100) + Pad2(d.year % 100) + "-" + Pad2(d.month) + "-" + Pad2(d.day)
  }

  function TwoDigits(s: string, i: int): int
    requires 0 <= i <= |s| - 2
  {
    10 * DigitValue(s[i]) + DigitValue(s[i + 1])
  }

  /** The text is four digits, a dash, two digits, a dash, two digits. */
  predicate HasDateShape(s: string) {
    |s| == 10 && s[4] == '-' && s[7] == '-'
    && IsDigit(s[0]) && IsDigit(s[1]) && IsDigit(s[2]) && IsDigit(s[3])
    && IsDigit(s[5]) && IsDigit(s[6]) && IsDigit(s[8]) && IsDigit(s[9])
  }

  /** `LocalDate.parse(s, ISO_LOCAL_DATE)`, `None` where it throws: the shape must be
      exact, the month 1 to 12 and the day one that month has, with no rounding of
      invalid days. Longer year forms need more than ten characters and do not
      arise for the day keys parsed here. */
  function ParseIsoDate(s: string): (r: Option<LocalDate>)
    ensures r.Some? ==> HasDateShape(s) && 0 <= r.value.year <= 9999
  {
    if HasDateShape(s) then
      var y := 100 * TwoDigits(s, 0) + TwoDigits(s, 2);
      var m := TwoDigits(s, 5);
      var d := TwoDigits(s, 8);
      if 1 <= m <= 12 && 1 <= d <= DaysInMonth(y, m) then Some(Date(y, m, d)) else None
    else None
  }

  lemma Pad2Digits(n: int)
    requires 0 <= n <= 99
    ensures IsDigit(Pad2(n)[0]) && IsDigit(Pad2(n)[1]) && TwoDigits(Pad2(n), 0) == n
  {
  }

  /** Every date of years 0 to 9999 parses back from its text. */
  lemma ParseFormat(d: LocalDate)
    requires 0 <= d.year <= 9999
    ensures ParseIsoDate(FormatIsoDate(d)) == Some(d)
  {
    var s := FormatIsoDate(d);
    var c, y, m, e := Pad2(d.year / 100), Pad2(d.year % 100), Pad2(d.month), Pad2(d.day);
    Pad2Digits(d.year / 100);
    Pad2Digits(d.year % 100);
    Pad2Digits(d.month);
    Pad2Digits(d.day);
    assert s == c + y + "-" + m + "-" + e;
    assert s[0] == c[0] && s[1] == c[1] && s[2] == y[0] && s[3] == y[1];
    assert s[5] == m[0] && s[6] == m[1] && s[8] == e[0] && s[9] == e[1];
    assert TwoDigits(s, 0) == TwoDigits(c, 0) && TwoDigits(s, 2) == TwoDigits(y, 0);
    assert TwoDigits(s, 5) == TwoDigits(m, 0) && TwoDigits(s, 8) == TwoDigits(e, 0);
  }

  lemma DigitsPad2(s: string, i: int)
    requires 0 <= i <= |s| - 2 && IsDigit(s[i]) && IsDigit(s[i + 1])
    ensures 0 <= TwoDigits(s, i) <= 99 && Pad2(TwoDigits(s, i)) == s[i..i + 2]
  {
  }

  /** A text that parses is exactly the text of the date it parses to: parsing accepts
      one spelling per date. */
  lemma FormatParse(s: string)
    requires ParseIsoDate(s).Some?
    ensures 0 <= ParseIsoDate(s).value.year <= 9999
    ensures FormatIsoDate(ParseIsoDate(s).value) == s
  {
    var d := ParseIsoDate(s).value;
    DigitsPad2(s, 0);
    DigitsPad2(s, 2);
    DigitsPad2(s, 5);
    DigitsPad2(s, 8);
    assert d.year / 100 == TwoDigits(s, 0) && d.year % 100 == TwoDigits(s, 2);
    assert s == s[0..2] + s[2..4] + "-" + s[5..7] + "-" + s[8..10];
  }

  // ---------------------------------------------------------------------------
  // Text order is date order
  // ---------------------------------------------------------------------------

  lemma {:induction false} LexLeConcat(p1: string, q1: string, p2: string, q2: string)
    requires |p1| == |p2|
    ensures LexLe(p1 + q1, p2 + q2) <==> LexLt(p1, p2) || (p1 == p2 && LexLe(q1, q2))
  {
    if p1 == [] {
      assert p1 + q1 == q1 && p2 + q2 == q2;
    } else {
      LexLeConcat(p1[1..], q1, p2[1..], q2);
      assert (p1 + q1)[1..] == p1[1..] + q1;
      assert (p2 + q2)[1..] == p2[1..] + q2;
      assert p1 == [p1[0]] + p1[1..] && p2 == [p2[0]] + p2[1..];
      if p1[0] == p2[0] && p1[1..] == p2[1..] {
        assert p1 == p2;
      }
    }
  }

  lemma Pad2Order(n: int, m: int)
    requires 0 <= n <= 99 && 0 <= m <= 99
    ensures LexLt(Pad2(n), Pad2(m)) <==> n < m
    ensures Pad2(n) == Pad2(m) <==> n == m
  {
    var a, b := Pad2(n), Pad2(m);
    assert a[1..][1..] == [] && b[1..][1..] == [];
    assert LexLe(a[1..], b[1..]) <==> a[1] <= b[1];
    assert LexLe(a, b) <==> a[0] < b[0] || (a[0] == b[0] && a[1] <= b[1]);
    assert a == b <==> a[0] == b[0] && a[1] == b[1];
    assert n == 10 * (n / 10) + n % 10 && m == 10 * (m / 10) + m % 10;
  }

  /** Comparing the texts of two dates compares the dates: sorting day keys as strings
      orders the days by the calendar. */
  lemma TextOrderIsDateOrder(a: LocalDate, b: LocalDate)
    requires 0 <= a.year <= 9999 && 0 <= b.year <= 9999
    ensures LexLe(FormatIsoDate(a), FormatIsoDate(b)) <==> !IsBefore(b, a)
  {
    Pad2Order(a.year / 100, b.year / 100);
    Pad2Order(a.year % 100, b.year % 100);
    Pad2Order(a.month, b.month);
    Pad2Order(a.day, b.day);
    var ya, yb := Pad2(a.year / 100), Pad2(b.year / 100);
    var za, zb := Pad2(a.year % 100), Pad2(b.year % 100);
    var ma, mb := Pad2(a.month), Pad2(b.month);
    var da, db := Pad2(a.day), Pad2(b.day);
    LexLeConcat(ya, za + "-" + ma + "-" + da, yb, zb + "-" + mb + "-" + db);
    LexLeConcat(za, "-" + ma + "-" + da, zb, "-" + mb + "-" + db);
    LexLeConcat("-", ma + "-" + da, "-", mb + "-" + db);
    LexLeConcat(ma, "-" + da, mb, "-" + db);
    LexLeConcat("-", da, "-", db);
    LexLeReflexive(da);
    assert FormatIsoDate(a) == ya + (za + "-" + ma + "-" + da);
    assert FormatIsoDate(b) == yb + (zb + "-" + mb + "-" + db);
    assert za + "-" + ma + "-" + da == za + ("-" + ma + "-" + da);
    assert zb + "-" + mb + "-" + db == zb + ("-" + mb + "-" + db);
    assert "-" + ma + "-" + da == "-" + (ma + "-" + da);
    assert "-" + mb + "-" + db == "-" + (mb + "-" + db);
    assert ma + "-" + da == ma + ("-" + da);
    assert mb + "-" + db == mb + ("-" + db);
    assert a.year == 100 * (a.year / 100) + a.year % 100;
    assert b.year == 100 * (b.year / 100) + b.year % 100;
  }

  // ---------------------------------------------------------------------------
  // Stepping back
  // ---------------------------------------------------------------------------

  /** `minusDays(1)`. */
  function PrevDay(d: LocalDate): (r: LocalDate)
    ensures IsBefore(r, d)
  {
    if d.day > 1 then Date(d.year, d.month, d.day - 1)
    else if d.month > 1 then Date(d.year, d.month - 1, DaysInMonth(d.year, d.month - 1))
    else Date(d.year - 1, 12, 31)
  }

  /** No date lies strictly between a date and the day before it. */
  lemma PrevDayImmediate(d: LocalDate, e: LocalDate)
    ensures IsBefore(e, d) ==> e == PrevDay(d) || IsBefore(e, PrevDay(d))
  {
  }

  /** `minusDays(n)`. */
  function MinusDays(d: LocalDate, n: nat): (r: LocalDate)
    ensures n > 0 ==> IsBefore(r, d)
    decreases n
  {
    if n == 0 then d else MinusDays(PrevDay(d), n - 1)
  }

  lemma {:induction false} MinusDaysNotAfter(d: LocalDate, n: nat)
    ensures !IsBefore(d, MinusDays(d, n))
    decreases n
  {
    if n > 0 {
      MinusDaysNotAfter(PrevDay(d), n - 1);
    }
  }

  /** The dates from `minusDays(n)` to the date itself, both included, are exactly the
      date and the `n` days before it. */
  lemma {:induction false} WindowIsLastDays(d: LocalDate, n: nat, e: LocalDate)
    ensures (!IsBefore(e, MinusDays(d, n)) && !IsBefore(d, e)) <==> exists k :: 0 <= k <= n && e == MinusDays(d, k)
    decreases n
  {
    if n == 0 {
      if e == d { assert e == MinusDays(d, 0); }
    } else {
      WindowIsLastDays(PrevDay(d), n - 1, e);
      PrevDayImmediate(d, e);
      if !IsBefore(e, MinusDays(d, n)) && !IsBefore(d, e) {
        if e == d {
          assert e == MinusDays(d, 0);
        } else {
          var k :| 0 <= k <= n - 1 && e == MinusDays(PrevDay(d), k);
          assert e == MinusDays(d, k + 1);
        }
      }
      if k :| 0 <= k <= n && e == MinusDays(d, k) {
        MinusDaysNotAfter(d, k);
        if k > 0 {
          var p := PrevDay(d);
          assert 0 <= k - 1 <= n - 1 && e == MinusDays(p, k - 1);
          assert exists j :: 0 <= j <= n - 1 && e == MinusDays(p, j);
          assert !IsBefore(e, MinusDays(p, n - 1)) && !IsBefore(p, e);
          assert MinusDays(d, n) == MinusDays(PrevDay(d), n - 1);
        } else {
          MinusDaysNotAfter(d, n);
        }
      }
    }
  }
}
