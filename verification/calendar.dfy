/** Calendar days as numbers, counted from 1 January 1970. */
module Calendar {

  type Date = int

  /** Day of the era of 400 years, counted from 1 March. */
  function DayOfEra(d: Date): nat { (d + 719_468) % 146_097 }

  function YearOfEra(ofEra: nat): int {
    (ofEra - ofEra / 1460 + ofEra / 36_524 - ofEra / 146_096) / 365
  }

  /** Day of a year that begins with March. */
  function DayOfYear(ofEra: nat): int {
    var year := YearOfEra(ofEra);
    ofEra - (365 * year + year / 4 - year / 100)
  }

  /** Month of a year that begins with March. */
  function MonthOfYear(ofYear: int): int { (5 * ofYear + 2) / 153 }

  /** Day of the month in the Gregorian calendar. */
  function DayOfMonth(d: Date): int {
    var ofYear := DayOfYear(DayOfEra(d));
    ofYear - (153 * MonthOfYear(ofYear) + 2) / 5 + 1
  }

  /** The last day before the month of a day: two days share a month exactly when they share it. */
  function BeforeMonth(d: Date): Date { d - DayOfMonth(d) }

  // ---------- the months of the Gregorian calendar ----------

  predicate IsLeap(year: int) {
    year % 4 == 0 && (year % 100 != 0 || year % 400 == 0)
  }

  /** Days of a month, counting months from March on: February is the last one and belongs to the next calendar year. */
  function MonthLength(year: int, month: nat): int
    requires month < 12
  {
    if month == 11 then (if IsLeap(year + 1) then 29 else 28)
    else if month in {1, 3, 6, 8} then 30
    else 31
  }

  function MonthStart(year: int, month: nat): int
    requires month < 12
  {
    if month == 0 then 0 else MonthStart(year, month - 1) + MonthLength(year, month - 1)
  }

  /** Days from 1 March of year 0 of an era of 400 years to 1 March of one of its years. */
  function YearStart(year: nat): int {
    if year == 0 then 0 else YearStart(year - 1) + if IsLeap(year) then 366 else 365
  }

  lemma {:induction false} YearStartIs(year: nat)
    requires year < 400
    ensures YearStart(year) == 365 * year + year / 4 - year / 100
  {
    if year > 0 {
      YearStartIs(year - 1);
      LeapDays(year);
    }
  }

  lemma LeapDays(year: nat)
    requires 0 < year < 400
    ensures year / 4 - year / 100 == (year - 1) / 4 - (year - 1) / 100 + if IsLeap(year) then 1 else 0
  {
    assert year / 4 == (year - 1) / 4 + if year % 4 == 0 then 1 else 0;
    assert year / 100 == (year - 1) / 100 + if year % 100 == 0 then 1 else 0;
    assert year % 100 == 0 ==> year % 4 == 0;
    assert year % 400 != 0;
  }

  lemma MonthStartIs(year: int, month: nat)
    requires month < 12
    ensures MonthStart(year, month) == (153 * month + 2) / 5
    decreases month
  {
    if month > 0 {
      MonthStartIs(year, month - 1);
    }
  }

  /** The year of an era is found by correcting for its leap days. */
  lemma {:induction false} YearFound(c: nat, q: nat, r: nat, ofYear: nat)
    requires c < 4 && q < 25 && r < 4
    requires ofYear <= 364 || (ofYear == 365 && r == 3 && (q < 24 || c == 3))
    ensures var ofEra := 36_524 * c + 1461 * q + 365 * r + ofYear;
            YearOfEra(ofEra) == 100 * c + 4 * q + r
  {
    var ofEra := 36_524 * c + 1461 * q + 365 * r + ofYear;
    var rest := 24 * c + q + 365 * r + ofYear;
    assert ofEra == 1460 * (25 * c + q) + rest;
    assert ofEra / 1460 == 25 * c + q + if rest >= 1460 then 1 else 0;
    assert ofEra / 36_524 - ofEra / 146_096 == c;
  }

  lemma MonthFound(year: int, month: nat, day: int)
    requires month < 12 && 1 <= day <= MonthLength(year, month)
    ensures var ofYear := (153 * month + 2) / 5 + day - 1;
            0 <= ofYear <= 365 && MonthOfYear(ofYear) == month && (ofYear == 365 ==> IsLeap(year + 1))
  {
    assert month == 11 ==> MonthLength(year, month) <= 29 && (day == 29 ==> IsLeap(year + 1));
    assert month < 11 ==> MonthLength(year, month) == if month in {1, 3, 6, 8} then 30 else 31;
  }

  /** Only the last year of four ends with a leap day, and of every hundred years the last only every fourth time. */
  lemma LeapYearParts(c: nat, q: nat, r: nat)
    requires c < 4 && q < 25 && r < 4 && IsLeap(100 * c + 4 * q + r + 1)
    ensures r == 3 && (q < 24 || c == 3)
  {
    var next := 100 * c + 4 * q + r + 1;
    assert next % 4 == (r + 1) % 4;
    if q == 24 && r == 3 {
      assert next == 100 * (c + 1);
      assert next % 100 == 0;
      assert next % 400 == 0;
    }
  }

  lemma YearParts(year: nat)
    requires year < 400
    ensures var c, q, r := year / 100, year % 100 / 4, year % 4;
            && c < 4 && q < 25 && r < 4 && year == 100 * c + 4 * q + r
            && 365 * year + year / 4 - year / 100 == 36_524 * c + 1461 * q + 365 * r
  {
    var c, q, r := year / 100, year % 100 / 4, year % 4;
    assert year == 100 * c + year % 100;
    assert year % 100 == 4 * q + year % 100 % 4 && year % 100 % 4 == r;
    assert year / 4 == 25 * c + q;
  }

  lemma DayOfYearFound(year: nat, ofYear: nat)
    requires year < 400 && ofYear <= 365 && (ofYear == 365 ==> IsLeap(year + 1))
    ensures var ofEra := 365 * year + year / 4 - year / 100 + ofYear;
            0 <= ofEra < 146_097 && DayOfYear(ofEra) == ofYear
  {
    var c, q, r := year / 100, year % 100 / 4, year % 4;
    YearParts(year);
    if ofYear == 365 {
      LeapYearParts(c, q, r);
    }
    YearFound(c, q, r, ofYear);
  }

  lemma EraFound(d: Date, era: int, ofEra: nat)
    requires d + 719_468 == 146_097 * era + ofEra && ofEra < 146_097
    ensures DayOfEra(d) == ofEra
  {
  }

  /**
   Day `day` of a month of any era is that day of the month: the arithmetic knows the
   lengths of all months and all leap years.
   */
  lemma {:induction false} KnowsTheCalendar(era: int, year: nat, month: nat, day: int)
    requires year < 400 && month < 12 && 1 <= day <= MonthLength(year, month)
    ensures DayOfMonth(146_097 * era + YearStart(year) + MonthStart(year, month) + day - 1 - 719_468) == day
  {
    MonthStartIs(year, month);
    YearStartIs(year);
    var ofYear := MonthStart(year, month) + day - 1;
    MonthFound(year, month, day);
    DayOfYearFound(year, ofYear);
    EraFound(146_097 * era + YearStart(year) + ofYear - 719_468, era, YearStart(year) + ofYear);
  }

  /** 20 February and 15 January 1970. */
  lemma TwoDaysOfMonth()
    ensures DayOfMonth(50) == 20 && DayOfMonth(14) == 15
  {
    YearStartIs(369);
    MonthStartIs(369, 11);
    MonthStartIs(369, 10);
    assert YearStart(369) == 134_774;
    KnowsTheCalendar(4, 369, 11, 20);
    KnowsTheCalendar(4, 369, 10, 15);
  }

  predicate IsLatest(dates: set<Date>, d: Date) {
    d in dates && forall e :: e in dates ==> e <= d
  }

  lemma {:induction false} LatestExists(dates: set<Date>)
    requires dates != {}
    ensures exists d :: IsLatest(dates, d)
    decreases |dates|
  {
    assert (forall d :: d !in dates) ==> dates == {};
    var d :| d in dates;
    var rest := dates - {d};
    if rest == {} {
      assert dates == {d} && IsLatest(dates, d);
    } else {
      LatestExists(rest);
      var e :| IsLatest(rest, e);
      var best := if d > e then d else e;
      forall x | x in dates
        ensures x <= best
      {
        assert x == d || x in rest;
      }
      assert IsLatest(dates, best);
    }
  }
}
