/** ISO dates of the instrument universe: civil-date arithmetic and its text form. */
module Calendar {
  import opened Domain

  datatype Date = Date(year: int, month: int, day: int)

  /** The proleptic Gregorian leap rule. */
  predicate IsLeapYear(year: int) {
    (year % 4 == 0 && year % 100 != 0) || year % 400 == 0
  }

  function DaysInMonth(year: int, month: int): int {
    match month
    case 1 | 3 | 5 | 7 | 8 | 10 | 12 => 31
    case 4 | 6 | 9 | 11 => 30
    case 2 => if IsLeapYear(year) then 29 else 28
    case _ => 0
  }

  predicate Valid(d: Date) {
    1 <= d.month <= 12 && 1 <= d.day <= DaysInMonth(d.year, d.month)
  }

  /** Division that truncates toward zero. */
  function TruncDiv(a: int, b: int): int
    requires b > 0
  {
    if a >= 0 then a / b else -((-a) / b)
  }

  /** Days since 1970-01-01, as the source computes them. */
  function DaysFromCivil(date: Date): int {
    var y := if date.month <= 2 then date.year - 1 else date.year;
    var era := TruncDiv(if y >= 0 then y else y - 399, 400);
    var yoe := y - era * 400;
    var doy := TruncDiv(153 * (if date.month > 2 then date.month - 3 else date.month + 9) + 2, 5) + date.day - 1;
    var doe := yoe * 365 + TruncDiv(yoe, 4) - TruncDiv(yoe, 100) + doy;
    era * 146097 + doe - 719468
  }

  // ----- The calendar, day by day -----

  function NextDay(d: Date): (r: Date)
    requires Valid(d)
    ensures Valid(r)
  {
    if d.day < DaysInMonth(d.year, d.month) then d.(day := d.day + 1)
    else if d.month < 12 then Date(d.year, d.month + 1, 1)
    else Date(d.year + 1, 1, 1)
  }

  function PrevDay(d: Date): (r: Date)
    requires Valid(d)
    ensures Valid(r) && NextDay(r) == d
  {
    if d.day > 1 then d.(day := d.day - 1)
    else if d.month > 1 then Date(d.year, d.month - 1, DaysInMonth(d.year, d.month - 1))
    else Date(d.year - 1, 12, 31)
  }

  /** The date `n` days after (or before) 1970-01-01, by stepping through the calendar. */
  function DateAt(n: int): (r: Date)
    ensures Valid(r)
    decreases if n < 0 then -n else n
  {
    if n == 0 then Date(1970, 1, 1)
    else if n > 0 then NextDay(DateAt(n - 1))
    else PrevDay(DateAt(n + 1))
  }

  predicate Before(a: Date, b: Date) {
    a.year < b.year || (a.year == b.year && (a.month < b.month || (a.month == b.month && a.day < b.day)))
  }

  // ----- Closed form -----

  /** The year that starts in March, counted in whole years' days. */
  function MarchYearStart(y: int): int {
    365 * y + y / 4 - y / 100 + y / 400
  }

  function DayOfMarchYear(month: int, day: int): int {
    (153 * (if month > 2 then month - 3 else month + 9) + 2) / 5 + day - 1
  }

  /** Eras are only a way to keep the divisions small. */
  lemma ErasCancel(date: Date)
    requires 1 <= date.month <= 12
    ensures DaysFromCivil(date)
            == MarchYearStart(if date.month <= 2 then date.year - 1 else date.year)
               + DayOfMarchYear(date.month, date.day) - 719468
  {
    var y := if date.month <= 2 then date.year - 1 else date.year;
    var era := TruncDiv(if y >= 0 then y else y - 399, 400);
    var yoe := y - era * 400;
    assert era == y / 400 && 0 <= yoe < 400;
    assert y / 4 == era * 100 + yoe / 4;
    assert y / 100 == era * 4 + yoe / 100;
  }

  lemma HundredDivides(y: int, q: int)
    requires y == 400 * q
    ensures y % 100 == 0
  {
  }

  lemma FourDivides(y: int, q: int)
    requires y == 100 * q
    ensures y % 4 == 0
  {
  }

  lemma LeapCentury(y: int)
    ensures y % 400 == 0 ==> y % 100 == 0
    ensures y % 100 == 0 ==> y % 4 == 0
  {
    if y % 400 == 0 {
      HundredDivides(y, y / 400);
    }
    if y % 100 == 0 {
      FourDivides(y, y / 100);
    }
  }

  lemma QuotientSteps(y: int)
    ensures y / 4 - (y - 1) / 4 == if y % 4 == 0 then 1 else 0
    ensures y / 100 - (y - 1) / 100 == if y % 100 == 0 then 1 else 0
    ensures y / 400 - (y - 1) / 400 == if y % 400 == 0 then 1 else 0
  {
  }

  lemma MarchYearLength(y: int)
    ensures MarchYearStart(y) - MarchYearStart(y - 1) == if IsLeapYear(y) then 366 else 365
  {
    LeapCentury(y);
    QuotientSteps(y);
  }

  /** Within the March-based year, each month starts where the one before ends. */
  lemma MonthsAbut(year: int, month: int)
    requires 1 <= month <= 12 && month != 2
    ensures DayOfMarchYear(month, DaysInMonth(year, month)) + 1
            == DayOfMarchYear(if month == 12 then 1 else month + 1, 1)
  {
  }

  lemma FebruaryEndsTheYear(year: int)
    ensures DayOfMarchYear(2, DaysInMonth(year, 2)) + 1 == (if IsLeapYear(year) then 366 else 365)
    ensures DayOfMarchYear(3, 1) == 0
  {
  }

  /** The day number within years that start in March. */
  function DayNumber(y: int, doy: int): int {
    MarchYearStart(y) + doy - 719468
  }

  lemma NextMonth(year: int, month: int)
    requires 1 <= month <= 12
    ensures var next := if month == 12 then Date(year + 1, 1, 1) else Date(year, month + 1, 1);
            DayNumber(if next.month <= 2 then next.year - 1 else next.year, DayOfMarchYear(next.month, 1))
            == DayNumber(if month <= 2 then year - 1 else year, DayOfMarchYear(month, DaysInMonth(year, month))) + 1
  {
    hide MarchYearStart, IsLeapYear, DayOfMarchYear, DaysInMonth;
    if month == 2 {
      FebruaryEndsTheYear(year);
      MarchYearLength(year);
    } else {
      MonthsAbut(year, month);
    }
  }

  lemma IsDayNumber(d: Date)
    requires 1 <= d.month <= 12
    ensures DaysFromCivil(d) == DayNumber(if d.month <= 2 then d.year - 1 else d.year, DayOfMarchYear(d.month, d.day))
  {
    hide DaysFromCivil, MarchYearStart, DayOfMarchYear;
    ErasCancel(d);
  }

  /** The next calendar day, by month lengths and the leap rule, is always one more. */
  lemma NextDayIsOneMore(d: Date)
    requires Valid(d)
    ensures DaysFromCivil(NextDay(d)) == DaysFromCivil(d) + 1
  {
    hide DaysFromCivil, MarchYearStart, IsLeapYear;
    IsDayNumber(d);
    IsDayNumber(NextDay(d));
    if d.day == DaysInMonth(d.year, d.month) {
      hide DayNumber, DayOfMarchYear, DaysInMonth;
      NextMonth(d.year, d.month);
    } else {
      OneDayOn(d.month, d.day);
    }
  }

  lemma OneDayOn(month: int, day: int)
    ensures DayOfMarchYear(month, day + 1) == DayOfMarchYear(month, day) + 1
  {
  }

  lemma EpochIsZero()
    ensures DaysFromCivil(Date(1970, 1, 1)) == 0
  {
  }

  /** Only the epoch is day zero. */
  lemma ZeroIsEpoch(d: Date)
    requires Valid(d) && DaysFromCivil(d) == 0
    ensures d == Date(1970, 1, 1)
  {
    ErasCancel(d);
    var y := if d.month <= 2 then d.year - 1 else d.year;
    var doy := DayOfMarchYear(d.month, d.day);
    assert 0 <= doy <= 365;
    assert y == 1969 by {
      if y >= 1970 {
        StartsAscend(1970, y);
      } else if y <= 1968 {
        StartsAscend(y + 1, 1969);
        MarchYearLength(y + 1);
      }
    }
    assert doy == 306;
  }

  lemma {:induction false} StartsAscend(a: int, b: int)
    requires a <= b
    ensures MarchYearStart(a) <= MarchYearStart(b)
    decreases b - a
  {
  }

  // ----- Day counting is a bijection -----

  /** The arithmetic is naive day counting: `n` steps from the epoch count `n` days. */
  lemma {:induction false} CountsDays(n: int)
    ensures DaysFromCivil(DateAt(n)) == n
    decreases if n < 0 then -n else n
  {
    hide DaysFromCivil, NextDay, PrevDay, Valid;
    if n == 0 {
      EpochIsZero();
    } else if n > 0 {
      CountsDays(n - 1);
      NextDayIsOneMore(DateAt(n - 1));
    } else {
      CountsDays(n + 1);
      NextDayIsOneMore(PrevDay(DateAt(n + 1)));
    }
  }

  /** And stepping undoes it: every valid date is reached from its day number. */
  lemma {:induction false} UndoesCounting(d: Date)
    requires Valid(d)
    ensures DateAt(DaysFromCivil(d)) == d
    decreases if DaysFromCivil(d) < 0 then -DaysFromCivil(d) else DaysFromCivil(d)
  {
    var n := DaysFromCivil(d);
    if n == 0 {
      ZeroIsEpoch(d);
    } else if n > 0 {
      NextDayIsOneMore(PrevDay(d));
      UndoesCounting(PrevDay(d));
    } else {
      NextDayIsOneMore(d);
      UndoesCounting(NextDay(d));
      NextDayInjective(PrevDay(NextDay(d)), d);
    }
  }

  lemma NextDayInjective(a: Date, b: Date)
    requires Valid(a) && Valid(b) && NextDay(a) == NextDay(b)
    ensures a == b
  {
  }

  lemma {:induction false} LaterDatesFollow(a: int, b: int)
    requires a < b
    ensures Before(DateAt(a), DateAt(b))
    decreases b - a
  {
    assert NextDay(DateAt(b - 1)) == DateAt(b) by {
      if b > 0 {
      } else {
        assert DateAt(b - 1) == PrevDay(DateAt(b));
      }
    }
    assert Before(DateAt(b - 1), DateAt(b));
    if a < b - 1 {
      LaterDatesFollow(a, b - 1);
    }
  }

  /** Day numbers order dates exactly as the calendar does, so distinct dates have distinct numbers. */
  lemma OrderIsCalendarOrder(a: Date, b: Date)
    requires Valid(a) && Valid(b)
    ensures DaysFromCivil(a) < DaysFromCivil(b) <==> Before(a, b)
    ensures DaysFromCivil(a) == DaysFromCivil(b) <==> a == b
  {
    UndoesCounting(a);
    UndoesCounting(b);
    if DaysFromCivil(a) < DaysFromCivil(b) {
      LaterDatesFollow(DaysFromCivil(a), DaysFromCivil(b));
    } else if DaysFromCivil(b) < DaysFromCivil(a) {
      LaterDatesFollow(DaysFromCivil(b), DaysFromCivil(a));
    }
  }

  // ----- Text form -----

  datatype DateError = NotIso | MonthOutOfRange | DayOutOfRange

  predicate IsDigit(c: char) {
    '0' <= c <= '9'
  }

  function Digit(n: int): (c: char)
    requires 0 <= n <= 9
    ensures IsDigit(c)
  {
    '0' + n as char
  }

  function DigitValue(c: char): (n: int)
    requires IsDigit(c)
    ensures 0 <= n <= 9 && Digit(n) == c
  {
    c as int - '0' as int
  }

  predicate AllDigits(s: seq<char>) {
    forall i | 0 <= i < |s| :: IsDigit(s[i])
  }

  function Number(s: seq<char>): (n: int)
    requires AllDigits(s)
    ensures n >= 0
  {
    if s == [] then 0 else 10 * Number(s[..|s| - 1]) + DigitValue(s[|s| - 1])
  }

  /** The first ten-byte check, the digits, the month, then the day: in that order. */
  function ParseIsoDate(s: seq<char>): Result<int, DateError> {
    if |s| != 10 || s[4] != '-' || s[7] != '-' then Err(NotIso)
    else if !(AllDigits(s[0..4]) && AllDigits(s[5..7]) && AllDigits(s[8..10])) then Err(NotIso)
    else
      var date := Date(Number(s[0..4]), Number(s[5..7]), Number(s[8..10]));
      if !(1 <= date.month <= 12) then Err(MonthOutOfRange)
      else if date.day < 1 || date.day > DaysInMonth(date.year, date.month) then Err(DayOutOfRange)
      else Ok(DaysFromCivil(date) * 86400000)
  }

  /** `n` in exactly `width` decimal digits. */
  function Padded(n: int, width: nat): (s: seq<char>)
    requires n >= 0
    ensures |s| == width && AllDigits(s)
  {
    if width == 0 then [] else Padded(n / 10, width - 1) + [Digit(n % 10)]
  }

  function Iso(d: Date): (s: seq<char>)
    requires d.year >= 0 && d.month >= 0 && d.day >= 0
    ensures |s| == 10
  {
    Padded(d.year, 4) + ['-'] + Padded(d.month, 2) + ['-'] + Padded(d.day, 2)
  }

  function Power10(width: nat): (p: int)
    ensures p > 0
  {
    if width == 0 then 1 else 10 * Power10(width - 1)
  }

  lemma {:induction false} NumberOfPadded(n: int, width: nat)
    requires 0 <= n < Power10(width)
    ensures Number(Padded(n, width)) == n
  {
    if width > 0 {
      NumberOfPadded(n / 10, width - 1);
      assert Padded(n, width)[..width - 1] == Padded(n / 10, width - 1);
    }
  }

  lemma {:induction false} PaddedOfNumber(s: seq<char>)
    requires AllDigits(s)
    ensures Number(s) < Power10(|s|) && Padded(Number(s), |s|) == s
  {
    if s != [] {
      PaddedOfNumber(s[..|s| - 1]);
      assert s == s[..|s| - 1] + [s[|s| - 1]];
    }
  }

  predicate FourDigitDate(d: Date) {
    Valid(d) && 0 <= d.year <= 9999
  }

  /** Printing a date and parsing it gives its midnight. */
  lemma ParseUndoesIso(d: Date)
    requires FourDigitDate(d)
    ensures ParseIsoDate(Iso(d)) == Ok(DaysFromCivil(d) * 86400000)
  {
    hide DaysFromCivil, Padded, Number, AllDigits;
    assert Power10(2) == 100 && Power10(4) == 10000 by {
      assert Power10(0) == 1 && Power10(1) == 10 && Power10(3) == 1000;
    }
    hide Power10;
    NumberOfPadded(d.year, 4);
    NumberOfPadded(d.month, 2);
    NumberOfPadded(d.day, 2);
    PartsOfIso(d);
  }

  lemma PartsOfIso(d: Date)
    requires d.year >= 0 && d.month >= 0 && d.day >= 0
    ensures var s := Iso(d);
            && s[0..4] == Padded(d.year, 4) && s[5..7] == Padded(d.month, 2) && s[8..10] == Padded(d.day, 2)
            && s[4] == '-' == s[7]
  {
    hide Padded;
  }

  /** The date an accepted text names. */
  lemma AcceptedIsIso(s: seq<char>) returns (date: Date)
    requires ParseIsoDate(s).Ok?
    ensures FourDigitDate(date) && Iso(date) == s
  {
    var y, m, d := s[0..4], s[5..7], s[8..10];
    PaddedOfNumber(y);
    PaddedOfNumber(m);
    PaddedOfNumber(d);
    assert Power10(4) == 10000 by {
      assert Power10(0) == 1 && Power10(1) == 10 && Power10(2) == 100 && Power10(3) == 1000;
    }
    assert s == y + ['-'] + m + ['-'] + d;
    date := Date(Number(y), Number(m), Number(d));
  }

  /** The parser accepts exactly the ten-character form of the valid dates of years 0 to 9999, and gives
      that date's midnight. */
  lemma ParseAcceptsExactly(s: seq<char>, ms: int)
    ensures ParseIsoDate(s) == Ok(ms) <==> exists d :: FourDigitDate(d) && Iso(d) == s && ms == DaysFromCivil(d) * 86400000
  {
    hide ParseIsoDate, Iso, DaysFromCivil;
    if ParseIsoDate(s).Ok? {
      var d := AcceptedIsIso(s);
      ParseUndoesIso(d);
    }
    if d :| FourDigitDate(d) && Iso(d) == s && ms == DaysFromCivil(d) * 86400000 {
      ParseUndoesIso(d);
    }
  }

  /** Two accepted texts with the same midnight are the same text. */
  lemma ParseIsInjective(a: seq<char>, b: seq<char>)
    requires ParseIsoDate(a).Ok? && ParseIsoDate(a) == ParseIsoDate(b)
    ensures a == b
  {
    var da := AcceptedIsIso(a);
    var db := AcceptedIsIso(b);
    ParseUndoesIso(da);
    ParseUndoesIso(db);
    OrderIsCalendarOrder(da, db);
  }
}
