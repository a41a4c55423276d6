/** The day arithmetic of parseRfc2616Date (qlappcom/edgedrm.cpp:339-374), held to the Gregorian calendar
    counted day by day from 1970-01-01. */
module HttpDate {
  import opened Options

  // ---- The calendar, one day at a time ----

  datatype Date = Date(year: int, month: int, day: int)

  predicate LeapYear(y: int) {
    y % 4 == 0 && (y % 100 != 0 || y % 400 == 0)
  }

  function MonthLength(y: int, m: int): int
    requires 1 <= m <= 12
  {
    if m == 2 then (if LeapYear(y) then 29 else 28)
    else if m == 4 || m == 6 || m == 9 || m == 11 then 30
    else 31
  }

  predicate ValidDate(d: Date) {
    1 <= d.month <= 12 && 1 <= d.day <= MonthLength(d.year, d.month)
  }

  const EPOCH := Date(1970, 1, 1)

  function NextDay(d: Date): (r: Date)
    requires ValidDate(d)
    ensures ValidDate(r)
  {
    if d.day < MonthLength(d.year, d.month) then d.(day := d.day + 1)
    else if d.month < 12 then Date(d.year, d.month + 1, 1)
    else Date(d.year + 1, 1, 1)
  }

  function PreviousDay(d: Date): (r: Date)
    requires ValidDate(d)
    ensures ValidDate(r) && NextDay(r) == d
  {
    if d.day > 1 then d.(day := d.day - 1)
    else if d.month > 1 then Date(d.year, d.month - 1, MonthLength(d.year, d.month - 1))
    else Date(d.year - 1, 12, 31)
  }

  /** The date n days after the epoch, or -n days before it, reached one day at a time. */
  function DateOfDay(n: int): (d: Date)
    ensures ValidDate(d)
    decreases if n < 0 then -n else n
  {
    if n == 0 then EPOCH
    else if n > 0 then NextDay(DateOfDay(n - 1))
    else PreviousDay(DateOfDay(n + 1))
  }

  // ---- The closed form of the program ----

  /** Division that truncates toward zero. */
  function TruncDiv(x: int, y: int): int
    requires y > 0
  {
    if x >= 0 then x / y else -((-x) / y)
  }

  /** Days since 1970-01-01 (edgedrm.cpp:363-370); m is 1 .. 12 and day may run to 31 in any month. */
  function DayNumber(year: int, m: int, day: int): int
    requires 1 <= m <= 12 && 1 <= day
  {
    var y := if m <= 2 then year - 1 else year;
    var era := TruncDiv(if y >= 0 then y else y - 399, 400);
    var yoe := y - era * 400;
    var doy := (153 * (m + (if m > 2 then -3 else 9)) + 2) / 5 + (day - 1);
    var doe := yoe * 365 + yoe / 4 - yoe / 100 + doy;
    era * 146097 + doe - 719468
  }

  /** The truncating quotient with its correction is the floor. */
  lemma EraIsFloor(y: int)
    ensures TruncDiv(if y >= 0 then y else y - 399, 400) == y / 400
  {
  }

  /** The day number without eras: leap days counted from year 0, years starting in March. */
  lemma DayNumberFlat(year: int, m: int, day: int)
    requires 1 <= m <= 12 && 1 <= day
    ensures var y := if m <= 2 then year - 1 else year;
            DayNumber(year, m, day) ==
            y * 365 + y / 4 - y / 100 + y / 400 + (153 * (if m > 2 then m - 3 else m + 9) + 2) / 5 + day - 719469
  {
    var y := if m <= 2 then year - 1 else year;
    EraIsFloor(y);
    var era := y / 400;
    var yoe := y - era * 400;
    assert y / 4 == era * 100 + yoe / 4;
    assert y / 100 == era * 4 + yoe / 100;
  }

  lemma QuotientStep4(y: int)
    ensures y / 4 - (y - 1) / 4 == if y % 4 == 0 then 1 else 0
  {
  }

  lemma QuotientStep100(y: int)
    ensures y / 100 - (y - 1) / 100 == if y % 100 == 0 then 1 else 0
  {
  }

  lemma QuotientStep400(y: int)
    ensures y / 400 - (y - 1) / 400 == if y % 400 == 0 then 1 else 0
  {
  }

  lemma CenturiesDivide(y: int)
    ensures (y % 400 == 0 ==> y % 100 == 0) && (y % 100 == 0 ==> y % 4 == 0)
  {
  }

  lemma LeapDayCount(y: int)
    ensures (y / 4 - y / 100 + y / 400) - ((y - 1) / 4 - (y - 1) / 100 + (y - 1) / 400) == if LeapYear(y) then 1 else 0
  {
    QuotientStep4(y);
    QuotientStep100(y);
    QuotientStep400(y);
    CenturiesDivide(y);
  }

  /** The months from March on, in the closed form, have their Gregorian lengths. */
  lemma MonthOffset(m: int)
    requires 3 <= m <= 11
    ensures forall y :: (153 * (m - 2) + 2) / 5 == (153 * (m - 3) + 2) / 5 + MonthLength(y, m)
  {
    match m {
      case 3 => case 4 => case 5 => case 6 => case 7 => case 8 => case 9 => case 10 => case 11 =>
    }
  }

  lemma FirstOfMonthAfterLast(y: int, m: int)
    requires 1 <= m <= 11
    ensures DayNumber(y, m + 1, 1) == DayNumber(y, m, MonthLength(y, m)) + 1
  {
    hide DayNumber;
    var last := MonthLength(y, m);
    DayNumberFlat(y, m, last);
    DayNumberFlat(y, m + 1, 1);
    if m == 1 {
      assert last == 31;
    } else if m == 2 {
      LeapDayCount(y);
    } else {
      MonthOffset(m);
    }
  }

  lemma NewYearAfterLast(y: int)
    ensures DayNumber(y + 1, 1, 1) == DayNumber(y, 12, 31) + 1
  {
    DayNumberFlat(y, 12, 31);
    DayNumberFlat(y + 1, 1, 1);
  }

  lemma DayNumberIsLinearInDay(y: int, m: int, day: int)
    requires 1 <= m <= 12 && 1 <= day
    ensures DayNumber(y, m, day) == DayNumber(y, m, 1) + day - 1
  {
    DayNumberFlat(y, m, day);
    DayNumberFlat(y, m, 1);
  }

  /** The day number of a date, as the program computes it from the parsed fields. */
  function Number(d: Date): int
    requires ValidDate(d)
  {
    DayNumber(d.year, d.month, d.day)
  }

  lemma NumberWithinMonth(d: Date)
    requires ValidDate(d) && d.day < MonthLength(d.year, d.month)
    ensures Number(NextDay(d)) == Number(d) + 1
  {
  }

  lemma NumberAcrossMonths(d: Date)
    requires ValidDate(d) && d.day == MonthLength(d.year, d.month)
    ensures Number(NextDay(d)) == Number(d) + 1
  {
    hide DayNumber;
    if d.month < 12 {
      FirstOfMonthAfterLast(d.year, d.month);
    } else {
      NewYearAfterLast(d.year);
    }
  }

  /** From each valid date to the next the day number rises by exactly one. */
  lemma NextDayAddsOne(d: Date)
    requires ValidDate(d)
    ensures Number(NextDay(d)) == Number(d) + 1
  {
    if d.day < MonthLength(d.year, d.month) {
      NumberWithinMonth(d);
    } else {
      NumberAcrossMonths(d);
    }
  }

  // ---- Any function that is 0 at the epoch and rises by one from each date to the next is the day count ----

  ghost predicate CountsDays(f: Date -> int) {
    f(EPOCH) == 0 && forall d :: ValidDate(d) ==> f(NextDay(d)) == f(d) + 1
  }

  lemma DateOfNextDay(n: int)
    ensures DateOfDay(n + 1) == NextDay(DateOfDay(n))
  {
    hide NextDay, PreviousDay, ValidDate;
  }

  lemma RisesByOne(f: Date -> int, d: Date)
    requires CountsDays(f) && ValidDate(d)
    ensures f(NextDay(d)) == f(d) + 1
  {
    hide NextDay, ValidDate;
  }

  lemma {:induction false} CountOfDate(f: Date -> int, n: int)
    requires CountsDays(f)
    ensures f(DateOfDay(n)) == n
    decreases if n < 0 then -n else n
  {
    hide NextDay, PreviousDay, ValidDate;
    if n == 0 {
      assert f(EPOCH) == 0;
    } else if n > 0 {
      hide CountsDays;
      CountOfDate(f, n - 1);
      DateOfNextDay(n - 1);
      RisesByOne(f, DateOfDay(n - 1));
    } else {
      hide CountsDays;
      CountOfDate(f, n + 1);
      DateOfNextDay(n);
      RisesByOne(f, DateOfDay(n));
    }
  }

  /** How far a date is from the epoch, by year, month and day. */
  function Years(d: Date): nat {
    if d.year < 1970 then 1970 - d.year else d.year - 1970
  }

  function Months(d: Date): int {
    if d.year < 1970 then 12 - d.month else d.month
  }

  function Days(d: Date): int {
    if d.year < 1970 then 31 - d.day else d.day
  }

  lemma NextDayIsNearer(d: Date)
    requires ValidDate(d) && d.year < 1970
    ensures var e := NextDay(d);
            Months(d) >= 0 && Days(d) >= 0 && Months(e) >= 0 && Days(e) >= 0
            && (Years(e) < Years(d) || (Years(e) == Years(d) &&
                (Months(e) < Months(d) || (Months(e) == Months(d) && Days(e) < Days(d)))))
  {
    hide LeapYear;
  }

  lemma PreviousDayIsNearer(d: Date)
    requires ValidDate(d) && d.year >= 1970 && d != EPOCH
    ensures var e := PreviousDay(d);
            Months(d) >= 0 && Days(d) >= 0 && Months(e) >= 0 && Days(e) >= 0 && e.year >= 1970
            && (Years(e) < Years(d) || (Years(e) == Years(d) &&
                (Months(e) < Months(d) || (Months(e) == Months(d) && Days(e) < Days(d)))))
  {
    hide LeapYear;
  }

  lemma CountBeforeNext(f: Date -> int, d: Date)
    requires CountsDays(f) && ValidDate(d)
    ensures DateOfDay(f(NextDay(d))) == NextDay(d) ==> DateOfDay(f(d)) == d
  {
    RisesByOne(f, d);
    DateOfNextDay(f(d));
    if DateOfDay(f(NextDay(d))) == NextDay(d) {
      NextDayInjective(DateOfDay(f(d)), d);
    }
    hide NextDay, ValidDate, DateOfDay, CountsDays;
  }

  lemma CountAfterPrevious(f: Date -> int, d: Date)
    requires CountsDays(f) && ValidDate(d) && DateOfDay(f(PreviousDay(d))) == PreviousDay(d)
    ensures DateOfDay(f(d)) == d
  {
    hide PreviousDay, NextDay, ValidDate, DateOfDay, CountsDays;
    var e := PreviousDay(d);
    RisesByOne(f, e);
    DateOfNextDay(f(e));
  }

  lemma {:induction false} DateOfCount(f: Date -> int, d: Date)
    requires CountsDays(f) && ValidDate(d)
    ensures DateOfDay(f(d)) == d
    decreases Years(d), Months(d), Days(d)
  {
    hide DateOfDay, NextDay, PreviousDay, ValidDate;
    if d == EPOCH {
      assert f(EPOCH) == 0;
      assert DateOfDay(0) == EPOCH by { EpochIsDayZero(); }
    } else if d.year < 1970 {
      hide CountsDays, Years, Months, Days;
      NextDayIsNearer(d);
      DateOfCount(f, NextDay(d));
      CountBeforeNext(f, d);
    } else {
      hide CountsDays, Years, Months, Days;
      PreviousDayIsNearer(d);
      DateOfCount(f, PreviousDay(d));
      CountAfterPrevious(f, d);
    }
  }

  lemma EpochIsDayZero()
    ensures DateOfDay(0) == EPOCH
  {
  }

  ghost function ClosedForm(): Date -> int {
    d => if ValidDate(d) then Number(d) else 0
  }

  lemma ClosedFormCountsDays()
    ensures CountsDays(ClosedForm())
  {
    assert Number(EPOCH) == 0;
    forall d | ValidDate(d) ensures ClosedForm()(NextDay(d)) == ClosedForm()(d) + 1 {
      NextDayAddsOne(d);
    }
  }

  /** The closed form gives back the count of days, for every day before and after the epoch. */
  lemma NumberOfDate(n: int)
    ensures Number(DateOfDay(n)) == n
  {
    ClosedFormCountsDays();
    CountOfDate(ClosedForm(), n);
  }

  /** Counting to the day number of a date arrives at that date: the closed form is exact on all valid dates. */
  lemma DateOfNumber(d: Date)
    requires ValidDate(d)
    ensures DateOfDay(Number(d)) == d
  {
    ClosedFormCountsDays();
    DateOfCount(ClosedForm(), d);
  }

  lemma NextDayInjective(d: Date, e: Date)
    requires ValidDate(d) && ValidDate(e) && NextDay(d) == NextDay(e)
    ensures d == e
  {
  }

  // ---- The parsed date ----

  const MONTHS: seq<string> := ["Jan", "Feb", "Mar", "Apr", "May", "Jun", "Jul", "Aug", "Sep", "Oct", "Nov", "Dec"]

  /** The fields sscanf leaves: mon is at most 3 characters. */
  datatype Fields = Fields(day: int, mon: string, year: int, hh: int, mm: int, ss: int)

  /** The names of the months, one by one (section 3.3.1 of RFC 2616). */
  lemma MonthNames()
    ensures MONTHS[0] == "Jan" && MONTHS[1] == "Feb" && MONTHS[2] == "Mar" && MONTHS[3] == "Apr"
    ensures MONTHS[4] == "May" && MONTHS[5] == "Jun" && MONTHS[6] == "Jul" && MONTHS[7] == "Aug"
    ensures MONTHS[8] == "Sep" && MONTHS[9] == "Oct" && MONTHS[10] == "Nov" && MONTHS[11] == "Dec"
  {
  }

  /** The position of a month name, or -1 (edgedrm.cpp:354-357). */
  method MonthIndex(mon: string) returns (month: int)
    ensures -1 <= month < 12
    ensures forall j :: 0 <= j < 12 ==> (MONTHS[j] == mon <==> j == month)
  {
    month := -1;
    for i := 0 to 12
      invariant month == -1 && forall j :: 0 <= j < i ==> mon != MONTHS[j]
    {
      if mon == MONTHS[i] {
        month := i;
        MonthsDiffer(i);
        break;
      }
    }
  }

  /** From the parsed fields to seconds since the epoch (edgedrm.cpp:350-372). The result is None exactly when a field
      is rejected. A day past the end of its month is not rejected: it counts on from the first of that month. */
  method UnixSeconds(f: Fields) returns (secs: Option<int>)
    ensures var inRange := 1 <= f.day <= 31 && 0 <= f.hh <= 23 && 0 <= f.mm <= 59 && 0 <= f.ss <= 60;
            && (secs.None? <==> !inRange || forall m :: 0 <= m < 12 ==> f.mon != MONTHS[m])
            && forall m :: 0 <= m < 12 && f.mon == MONTHS[m] && inRange ==>
              secs == Some((Number(Date(f.year, m + 1, 1)) + f.day - 1) * 86400 + f.hh * 3600 + f.mm * 60 + f.ss)
  {
    var month := MonthIndex(f.mon);
    if month < 0 || f.day < 1 || f.day > 31 || f.hh < 0 || f.hh > 23 || f.mm < 0 || f.mm > 59 || f.ss < 0 || f.ss > 60 {
      return None;
    }
    assert MONTHS[month] == f.mon;
    var days := DayNumber(f.year, month + 1, f.day);
    DayNumberIsLinearInDay(f.year, month + 1, f.day);
    secs := Some(days * 86400 + f.hh * 3600 + f.mm * 60 + f.ss);
  }

  lemma MonthsDiffer(i: nat)
    requires i < 12
    ensures forall j :: 0 <= j < 12 && MONTHS[j] == MONTHS[i] ==> j == i
  {
  }

  /** The date that RFC 2616 gives as its example, Sun, 06 Nov 1994 08:49:37 GMT, by the day number of its month. */
  lemma ExampleDate()
    ensures MONTHS[10] == "Nov"
    ensures (Number(Date(1994, 10 + 1, 1)) + 6 - 1) * 86400 + 8 * 3600 + 49 * 60 + 37 == 784111777
  {
  }
}
