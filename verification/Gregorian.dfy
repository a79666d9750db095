/** Proleptic Gregorian dates and their Julian Day Numbers (`g2d` / `d2g`).

    The independent reference is the calendar itself: month lengths, the leap-year rule of
    section 3.2.1 of ISO 8601:2004, and the successor of a date. */
module Gregorian {
  import opened Truncation

  datatype GregorianDate = GregorianDate(gy: int, gm: int, gd: int)

  predicate IsLeapYear(y: int) {
    y % 4 == 0 && (y % 100 != 0 || y % 400 == 0)
  }

  function MonthLength(y: int, m: int): int {
    if m == 2 then (if IsLeapYear(y) then 29 else 28)
    else if m in {4, 6, 9, 11} then 30
    else 31
  }

  predicate ValidDate(d: GregorianDate) {
    1 <= d.gm <= 12 && 1 <= d.gd <= MonthLength(d.gy, d.gm)
  }

  /** Dates from 1 March of year -100100: before it the formulas divide a negative number. */
  predicate Covered(d: GregorianDate) {
    ValidDate(d) && (d.gy > -100100 || (d.gy == -100100 && d.gm >= 3))
  }

  function NextDate(d: GregorianDate): GregorianDate {
    if d.gd < MonthLength(d.gy, d.gm) then d.(gd := d.gd + 1)
    else if d.gm < 12 then GregorianDate(d.gy, d.gm + 1, 1)
    else GregorianDate(d.gy + 1, 1, 1)
  }

  function G2d(gy: int, gm: int, gd: int): int {
    var d := Div((gy + Div(gm - 8, 6) + 100100) * 1461, 4) + Div(153 * Mod(gm + 9, 12) + 2, 5) + gd - 34840408;
    d - Div(Div(gy + 100100 + Div(gm - 8, 6), 100) * 3, 4) + 752
  }

  /** The first half of `d2g`: quarter-days since the epoch with the dropped century leap days put back. */
  function QuarterDays(jdn: int): int {
    var j := 4 * jdn + 139361631;
    j + Div(Div(4 * jdn + 183187720, 146097) * 3, 4) * 4 - 3908
  }

  /** The second half of `d2g`: month and day from the quarter-days left over in the March-year. */
  function FromQuarterDays(j: int): GregorianDate {
    var i := Div(Mod(j, 1461), 4) * 5 + 308;
    var gd := Div(Mod(i, 153), 5) + 1;
    var gm := Mod(Div(i, 153), 12) + 1;
    var gy := Div(j, 1461) - 100100 + Div(8 - gm, 6);
    GregorianDate(gy, gm, gd)
  }

  function D2g(jdn: int): GregorianDate {
    FromQuarterDays(QuarterDays(jdn))
  }

  function DayNumber(d: GregorianDate): int {
    G2d(d.gy, d.gm, d.gd)
  }

  const FIRST_DAY := G2d(-100100, 3, 1)

  // ----- Years that begin in March, counted from March of -100100

  function MarchYear(gy: int, gm: int): int {
    gy + 100100 - (if gm <= 2 then 1 else 0)
  }

  function MarchMonth(gm: int): int {
    if gm <= 2 then gm + 9 else gm - 3
  }

  /** Days before 1 March of March-year `y`. */
  function DaysBeforeYear(y: nat): int {
    365 * y + y / 4 - 3 * (y / 100) / 4
  }

  /** Days before the first of March-month `m` within its year. */
  function DaysBeforeMonth(m: nat): int {
    (153 * m + 2) / 5
  }

  lemma ClosedForm(gy: int, gm: int, gd: int)
    requires 1 <= gm <= 12
    requires MarchYear(gy, gm) >= 0
    ensures G2d(gy, gm, gd)
         == DaysBeforeYear(MarchYear(gy, gm)) + DaysBeforeMonth(MarchMonth(gm)) + gd - 34839656
  {
    var y := MarchYear(gy, gm);
    assert Div(gm - 8, 6) == (if gm <= 2 then -1 else 0);
    assert Mod(gm + 9, 12) == MarchMonth(gm);
    assert y * 1461 / 4 == 365 * y + y / 4;
  }

  lemma FirstDay()
    ensures FIRST_DAY == -34839655
  {
    ClosedForm(-100100, 3, 1);
  }

  /** Month starts follow the real month lengths; February takes what is left. */
  lemma MonthStarts(gy: int, gm: int)
    requires 1 <= gm <= 12
    ensures gm != 2 ==> DaysBeforeMonth(MarchMonth(gm)) + MonthLength(gy, gm) == DaysBeforeMonth(MarchMonth(gm) + 1)
    ensures gm == 2 ==> DaysBeforeMonth(MarchMonth(gm)) == 337
  {
  }

  /** The leap rule in years counted from -100100, the 100th year of a 400-year cycle. */
  predicate LeapFromEpoch(y: nat) {
    y % 4 == 0 && (y % 100 != 0 || y / 100 % 4 == 1)
  }

  /** The leap rule repeats every 400 years. */
  lemma LeapPeriod(k: int, t: int)
    requires 0 <= t < 400
    ensures IsLeapYear(400 * k + t) <==> t % 4 == 0 && (t % 100 != 0 || t == 0)
  {
    var y := 400 * k + t;
    Quotient(y, 400, k, t);
    Quotient(y, 100, 4 * k + t / 100, t % 100);
    Quotient(y, 4, 100 * k + t / 4, t % 4);
  }

  lemma LeapRule(y: nat)
    ensures IsLeapYear(y - 100100) <==> LeapFromEpoch(y)
  {
    var q, r := y / 400, y % 400;
    Quotient(y, 100, 4 * q + r / 100, r % 100);
    Quotient(y, 4, 100 * q + r / 4, r % 4);
    Quotient(4 * q + r / 100, 4, q, r / 100);
    if r < 100 {
      LeapPeriod(q - 251, r + 300);
    } else {
      LeapPeriod(q - 250, r - 100);
    }
  }

  /** Leap days dropped up to a century, and up to the next. */
  lemma CenturyStep(c: nat)
    ensures 3 * (c + 1) / 4 == 3 * c / 4 + (if (c + 1) % 4 == 1 then 0 else 1)
  {
    var q, t := c / 4, c % 4;
    Quotient(3 * (c + 1), 4, 3 * q + 3 * (t + 1) / 4, 3 * (t + 1) % 4);
    Quotient(3 * c, 4, 3 * q + 3 * t / 4, 3 * t % 4);
    Quotient(c + 1, 4, q + (t + 1) / 4, (t + 1) % 4);
  }

  lemma FourYearStep(y: nat)
    ensures (y + 1) / 4 == y / 4 + (if (y + 1) % 4 == 0 then 1 else 0)
  {
  }

  lemma CountedYearLength(y: nat)
    ensures DaysBeforeYear(y + 1) == DaysBeforeYear(y) + (if LeapFromEpoch(y + 1) then 366 else 365)
  {
    var c, r := y / 100, y % 100;
    FourYearStep(y);
    if r == 99 {
      Quotient(y + 1, 100, c + 1, 0);
      CenturyStep(c);
      Quotient(y + 1, 4, 25 * (c + 1), 0);
    } else {
      Quotient(y + 1, 100, c, r + 1);
    }
  }

  lemma YearLength(y: nat)
    ensures DaysBeforeYear(y + 1) == DaysBeforeYear(y) + (if IsLeapYear(y + 1 - 100100) then 366 else 365)
  {
    LeapRule(y + 1);
    CountedYearLength(y);
  }

  /** A date's place among March-years, on which the next day is the next place. */
  function MarchDays(d: GregorianDate): int
    requires MarchYear(d.gy, d.gm) >= 0 && 1 <= d.gm <= 12
  {
    DaysBeforeYear(MarchYear(d.gy, d.gm)) + DaysBeforeMonth(MarchMonth(d.gm)) + d.gd
  }

  lemma NextMarchDay(d: GregorianDate)
    requires Covered(d)
    ensures Covered(NextDate(d)) && MarchDays(NextDate(d)) == MarchDays(d) + 1
  {
    MonthStarts(d.gy, d.gm);
    if d.gm == 2 {
      YearLength(MarchYear(d.gy, d.gm));
    }
  }

  /** The next calendar day has the next day number. */
  lemma NextDayNumber(d: GregorianDate)
    requires Covered(d)
    ensures Covered(NextDate(d))
    ensures DayNumber(NextDate(d)) == DayNumber(d) + 1
  {
    var n := NextDate(d);
    NextMarchDay(d);
    ClosedForm(d.gy, d.gm, d.gd);
    ClosedForm(n.gy, n.gm, n.gd);
    assert MarchDays(n) == MarchDays(d) + 1;
  }

  // ----- d2g undoes g2d

  /** Four times a day count falls into the century of its March-year. */
  lemma WithinCentury(y: nat, doy: nat)
    requires doy < DaysBeforeYear(y + 1) - DaysBeforeYear(y)
    ensures var n := DaysBeforeYear(y) + doy;
            146097 * (y / 100) <= 4 * n < 146097 * (y / 100 + 1)
    ensures 4 * (DaysBeforeYear(y) + doy) == 1461 * y - y % 4 - 4 * (3 * (y / 100) / 4) + 4 * doy
    ensures 4 * doy + 3 - y % 4 < 1461
  {
    YearLength(y);
    var c, r := y / 100, y % 100;
    Quotient(y, 4, 25 * c + r / 4, r % 4);
  }

  /** What the second line of `d2g` puts back for a day of century `c`. */
  lemma CenturyDays(n: int, c: nat)
    requires 146097 * c <= 4 * n < 146097 * (c + 1)
    ensures QuarterDays(n - 34839655) == 4 * n + 4 * (3 * c / 4) + 3
  {
    var k := 4 * (n - 34839655) + 183187720;
    Quotient(k, 146097, c + 300, k - 146097 * (c + 300));
    assert Div(k, 146097) == c + 300;
    assert Div((c + 300) * 3, 4) == 3 * c / 4 + 225;
  }

  /** The March-year and the day within it, read back from a day count. */
  lemma ReadYear(y: nat, doy: nat)
    requires doy < DaysBeforeYear(y + 1) - DaysBeforeYear(y)
    ensures QuarterDays(DaysBeforeYear(y) + doy - 34839655) == 1461 * y + 4 * doy + 3 - y % 4
    ensures 4 * doy + 3 - y % 4 < 1461
  {
    WithinCentury(y, doy);
    CenturyDays(DaysBeforeYear(y) + doy, y / 100);
  }

  /** Month and day read back from a day within the March-year. */
  lemma ReadMonth(m: nat, gd: int)
    requires m < 12
    requires 1 <= gd && DaysBeforeMonth(m) + gd <= (if m == 11 then 366 else DaysBeforeMonth(m + 1))
    ensures var i := (DaysBeforeMonth(m) + gd - 1) * 5 + 308;
            i % 153 / 5 + 1 == gd && i / 153 == m + 2
  {
    var i := (DaysBeforeMonth(m) + gd - 1) * 5 + 308;
    var s := (153 * m + 2) % 5;
    var r := 5 * (gd - 1) + 4 - s;
    Quotient(153 * m + 2, 5, DaysBeforeMonth(m), s);
    assert m < 11 ==> 5 * DaysBeforeMonth(m + 1) <= 153 * m + 155;
    assert 0 <= r < 153;
    Quotient(i, 153, m + 2, r);
    Quotient(r, 5, gd - 1, 4 - s);
  }

  lemma ReadDate(y: nat, m: nat, gd: int, rest: nat)
    requires m < 12
    requires 1 <= gd && DaysBeforeMonth(m) + gd <= (if m == 11 then 366 else DaysBeforeMonth(m + 1))
    requires rest < 1461 && rest / 4 == DaysBeforeMonth(m) + gd - 1
    ensures FromQuarterDays(1461 * y + rest)
         == GregorianDate(y - 100100 + (if m >= 10 then 1 else 0), (m + 2) % 12 + 1, gd)
  {
    var j := 1461 * y + rest;
    Quotient(j, 1461, y, rest);
    ReadMonth(m, gd);
    assert Div(8 - ((m + 2) % 12 + 1), 6) == (if m >= 10 then 1 else 0);
  }

  lemma YearsApart(y: nat, z: nat)
    requires y < z
    ensures DaysBeforeYear(y) + 365 <= DaysBeforeYear(z)
    decreases z - y
  {
    YearLength(y);
    if y + 1 < z {
      YearsApart(y + 1, z);
    }
  }

  /** A covered date sits inside its March-month and its March-year. */
  lemma WithinMarchYear(d: GregorianDate)
    requires Covered(d)
    ensures var y, m := MarchYear(d.gy, d.gm), MarchMonth(d.gm);
            && y >= 0
            && DaysBeforeMonth(m) + d.gd <= (if m == 11 then 366 else DaysBeforeMonth(m + 1))
            && DaysBeforeMonth(m) + d.gd <= DaysBeforeYear(y + 1) - DaysBeforeYear(y)
            && GregorianDate(y - 100100 + (if m >= 10 then 1 else 0), (m + 2) % 12 + 1, d.gd) == d
  {
    var y := MarchYear(d.gy, d.gm);
    MonthStarts(d.gy, d.gm);
    if d.gm == 2 {
      YearLength(y);
    } else {
      YearsApart(y, y + 1);
      assert DaysBeforeMonth(MarchMonth(d.gm) + 1) <= 337;
    }
  }

  lemma ReadDay(jdn: int, y: nat, m: nat, gd: int)
    requires m < 12
    requires 1 <= gd && DaysBeforeMonth(m) + gd <= (if m == 11 then 366 else DaysBeforeMonth(m + 1))
    requires DaysBeforeMonth(m) + gd <= DaysBeforeYear(y + 1) - DaysBeforeYear(y)
    requires jdn == DaysBeforeYear(y) + DaysBeforeMonth(m) + gd - 34839656
    ensures D2g(jdn) == GregorianDate(y - 100100 + (if m >= 10 then 1 else 0), (m + 2) % 12 + 1, gd)
  {
    var doy := DaysBeforeMonth(m) + gd - 1;
    var rest := 4 * doy + 3 - y % 4;
    ReadYear(y, doy);
    assert rest / 4 == doy;
    ReadDate(y, m, gd, rest);
  }

  lemma ReadMarchDay(jdn: int, d: GregorianDate)
    requires Covered(d) && jdn == MarchDays(d) - 34839656
    ensures D2g(jdn) == d
  {
    WithinMarchYear(d);
    ReadDay(jdn, MarchYear(d.gy, d.gm), MarchMonth(d.gm), d.gd);
  }

  lemma GregorianRoundTrip(d: GregorianDate)
    requires Covered(d)
    ensures D2g(DayNumber(d)) == d
  {
    ClosedForm(d.gy, d.gm, d.gd);
    ReadMarchDay(DayNumber(d), d);
  }

  /** Every day number from the first one on is the number of a calendar date. */
  lemma {:induction false} DateOf(jdn: int) returns (d: GregorianDate)
    requires jdn >= FIRST_DAY
    ensures Covered(d) && DayNumber(d) == jdn
    decreases jdn - FIRST_DAY
  {
    if jdn == FIRST_DAY {
      d := GregorianDate(-100100, 3, 1);
    } else {
      var p := DateOf(jdn - 1);
      NextDayNumber(p);
      d := NextDate(p);
    }
  }

  lemma DayNumberRoundTrip(jdn: int)
    requires jdn >= FIRST_DAY
    ensures Covered(D2g(jdn)) && DayNumber(D2g(jdn)) == jdn
  {
    var d := DateOf(jdn);
    GregorianRoundTrip(d);
  }

  // ----- Years

  lemma FirstOfYear(gy: int)
    requires gy >= -100099
    ensures G2d(gy, 1, 1) == DaysBeforeYear(gy + 100099) - 34839349
  {
    ClosedForm(gy, 1, 1);
  }

  /** The fixed days of a year that the Jalali calendar is anchored to. */
  lemma Anchors(gy: int)
    requires gy >= -100099
    ensures G2d(gy, 1, 1) + 59 <= G2d(gy, 3, 1)
    ensures G2d(gy, 3, 31) == G2d(gy, 3, 1) + 30
    ensures G2d(gy + 1, 1, 1) == G2d(gy, 3, 1) + 306
  {
    FirstOfYear(gy);
    FirstOfYear(gy + 1);
    ClosedForm(gy, 3, 1);
    ClosedForm(gy, 3, 31);
    YearsApart(gy + 100099, gy + 100100);
  }

  /** The calendar year turns 306 days into the March-year. */
  lemma NewYearInMarchYear(d: GregorianDate)
    requires ValidDate(d)
    ensures var n := DaysBeforeMonth(MarchMonth(d.gm)) + d.gd;
            if d.gm <= 2 then 306 < n <= 366 else 0 < n <= 306
  {
  }

  /** A date lies between the first day of its year and the first of the next. */
  lemma WithinYear(d: GregorianDate)
    requires ValidDate(d) && d.gy >= -100099
    ensures G2d(d.gy, 1, 1) <= DayNumber(d) < G2d(d.gy + 1, 1, 1)
  {
    FirstOfYear(d.gy);
    FirstOfYear(d.gy + 1);
    ClosedForm(d.gy, d.gm, d.gd);
    NewYearInMarchYear(d);
    WithinMarchYear(d);
    YearsApart(d.gy + 100099, d.gy + 100100);
  }

  lemma FirstDaysApart(a: int, b: int)
    requires -100099 <= a < b
    ensures G2d(a + 1, 1, 1) <= G2d(b, 1, 1)
  {
    FirstOfYear(a + 1);
    FirstOfYear(b);
    if a + 1 < b {
      YearsApart(a + 100100, b + 100099);
    }
  }

  lemma BeforeFirstWholeYear(d: GregorianDate)
    requires Covered(d) && d.gy == -100100
    ensures DayNumber(d) < G2d(-100099, 1, 1)
  {
    ClosedForm(d.gy, d.gm, d.gd);
    FirstOfYear(-100099);
    NewYearInMarchYear(d);
  }

  lemma YearFound(d: GregorianDate, gy: int)
    requires Covered(d) && gy > -100099
    requires G2d(gy, 1, 1) <= DayNumber(d) < G2d(gy + 1, 1, 1)
    ensures d.gy == gy
  {
    if d.gy < -100099 {
      BeforeFirstWholeYear(d);
      FirstDaysApart(-100099, gy);
    } else {
      WithinYear(d);
      if d.gy < gy {
        FirstDaysApart(d.gy, gy);
      } else if gy < d.gy {
        FirstDaysApart(gy, d.gy);
      }
    }
  }

  /** The year `d2g` reads off a day number is the year whose days surround it. */
  lemma YearOf(jdn: int, gy: int)
    requires gy > -100099
    requires G2d(gy, 1, 1) <= jdn < G2d(gy + 1, 1, 1)
    ensures D2g(jdn).gy == gy
  {
    FirstOfYear(gy);
    FirstDay();
    var d := DateOf(jdn);
    GregorianRoundTrip(d);
    YearFound(d, gy);
  }
}
