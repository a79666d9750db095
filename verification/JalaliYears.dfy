/** Jalali dates over the two things `jalCal` tells of a year, its new-year day and its leap
    field: day numbers (`j2d`), the way back (`d2j`), and why each undoes the other. */
module JalaliYears {
  import opened Truncation
  import opened Gregorian
  import opened JalaliTable

  datatype JalaliDate = JalaliDate(jy: int, jm: int, jd: int)

  /** What is known of each year: the day number of 1 Farvardin, and years since a leap year. */
  datatype Years = Years(newYear: int -> int, leap: int -> int)

  function MonthLength(years: Years, jy: int, jm: int): int {
    if jm <= 6 then 31
    else if jm <= 11 then 30
    else if years.leap(jy) == 0 then 30 else 29
  }

  function DaysIn(years: Years, jy: int): int {
    if years.leap(jy) == 0 then 366 else 365
  }

  predicate IsLeap(years: Years, jy: int) {
    years.leap(jy) == 0
  }

  predicate ValidDay(years: Years, d: JalaliDate) {
    1 <= d.jm <= 12 && 1 <= d.jd <= MonthLength(years, d.jy, d.jm)
  }

  /** The date after `d`, by the month lengths alone. */
  function NextJalali(years: Years, d: JalaliDate): JalaliDate {
    if d.jd < MonthLength(years, d.jy, d.jm) then d.(jd := d.jd + 1)
    else if d.jm < 12 then JalaliDate(d.jy, d.jm + 1, 1)
    else JalaliDate(d.jy + 1, 1, 1)
  }

  /** Earlier in lexicographic (year, month, day). */
  predicate Before(a: JalaliDate, b: JalaliDate) {
    a.jy < b.jy || (a.jy == b.jy && (a.jm < b.jm || (a.jm == b.jm && a.jd < b.jd)))
  }

  /** Days from 1 Farvardin to a date of the same year. */
  function DaysInto(jm: int, jd: int): int {
    (jm - 1) * 31 - Div(jm, 7) * (jm - 7) + jd - 1
  }

  function J2d(years: Years, d: JalaliDate): int {
    years.newYear(d.jy) + DaysInto(d.jm, d.jd)
  }

  /** The date `k` days from 1 Farvardin of `jy`, `k` negative for the winter before it. */
  function FromOffset(jy: int, k: int, leap: int): JalaliDate {
    if 0 <= k <= 185 then
      JalaliDate(jy, 1 + Div(k, 31), Mod(k, 31) + 1)
    else
      var y := if k >= 0 then jy else jy - 1;
      var l := if k >= 0 then k - 186 else k + 179 + (if leap == 1 then 1 else 0);
      JalaliDate(y, 7 + Div(l, 30), Mod(l, 30) + 1)
  }

  /** The Jalali date of a day, counted from the new year of Gregorian year `gy`. */
  function FromGregorianYear(years: Years, gy: int, jdn: int): JalaliDate {
    var jy := gy - 621;
    FromOffset(jy, jdn - years.newYear(jy), years.leap(jy))
  }

  function D2j(years: Years, jdn: int): JalaliDate {
    FromGregorianYear(years, D2g(jdn).gy, jdn)
  }

  /** The second half of `d2j`, moving `k` and `jy` as it learns which half-year it is in. */
  method SplitOffset(year: int, offset: int, leap: int) returns (d: JalaliDate)
    ensures d == FromOffset(year, offset, leap)
  {
    var jy, k := year, offset;
    if k >= 0 {
      if k <= 185 {
        return JalaliDate(jy, 1 + Div(k, 31), Mod(k, 31) + 1);
      }
      k := k - 186;
    } else {
      jy := jy - 1;
      k := k + 179;
      if leap == 1 {
        k := k + 1;
      }
    }
    return JalaliDate(jy, 7 + Div(k, 30), Mod(k, 30) + 1);
  }

  // ----- Consistent years

  /** The next new year is as far as the leap field says, and a leap year, and no other, is
      followed by leap field 1. */
  ghost predicate Spaced(years: Years, jy: int) {
    && years.newYear(jy + 1) == years.newYear(jy) + DaysIn(years, jy)
    && (years.leap(jy + 1) == 1 <==> years.leap(jy) == 0)
  }

  /** The new year is in March of its Gregorian year. */
  ghost predicate InMarch(years: Years, jy: int) {
    jy >= -621 && G2d(jy + 621, 3, 1) <= years.newYear(jy) <= G2d(jy + 621, 3, 31)
  }

  ghost predicate Consistent(years: Years, lo: int, hi: int) {
    && (forall jy :: lo <= jy < hi ==> Spaced(years, jy))
    && (forall jy :: lo <= jy <= hi ==> InMarch(years, jy))
  }

  /** The months fill the year: each starts where the one before it ended. */
  lemma MonthsFillTheYear(years: Years, jy: int, jm: int)
    requires 1 <= jm <= 12
    ensures DaysInto(1, 1) == 0
    ensures DaysInto(jm, MonthLength(years, jy, jm)) + 1
         == if jm == 12 then DaysIn(years, jy) else DaysInto(jm + 1, 1)
  {
    assert Div(jm, 7) == if jm < 7 then 0 else 1;
    assert Div(jm + 1, 7) == if jm < 6 then 0 else 1;
  }

  lemma MonthCounted(years: Years, jy: int, jm: int)
    requires Spaced(years, jy) && 1 <= jm <= 12
    ensures MonthLength(years, jy, jm)
         == J2d(years, if jm < 12 then JalaliDate(jy, jm + 1, 1) else JalaliDate(jy + 1, 1, 1))
            - J2d(years, JalaliDate(jy, jm, 1))
  {
    MonthsFillTheYear(years, jy, jm);
  }

  /** The next date has the next day number, across months and across years. */
  lemma NextJalaliDay(years: Years, lo: int, hi: int, d: JalaliDate)
    requires Consistent(years, lo, hi)
    requires ValidDay(years, d) && lo <= d.jy < hi
    ensures J2d(years, NextJalali(years, d)) == J2d(years, d) + 1
    ensures ValidDay(years, NextJalali(years, d))
  {
    MonthsFillTheYear(years, d.jy, d.jm);
    assert Spaced(years, d.jy);
  }

  /** A date lies within its year. */
  lemma WithinYear(years: Years, d: JalaliDate)
    requires ValidDay(years, d)
    ensures 0 <= DaysInto(d.jm, d.jd) < DaysIn(years, d.jy)
  {
    assert Div(d.jm, 7) == if d.jm < 7 then 0 else 1;
  }

  /** Counting back from an offset in the year the offset is counted in. */
  lemma OffsetInYear(years: Years, d: JalaliDate)
    requires ValidDay(years, d)
    ensures FromOffset(d.jy, DaysInto(d.jm, d.jd), years.leap(d.jy)) == d
  {
    var k := DaysInto(d.jm, d.jd);
    assert Div(d.jm, 7) == if d.jm < 7 then 0 else 1;
    if d.jm <= 6 {
      assert k == 31 * (d.jm - 1) + (d.jd - 1);
    } else {
      assert k - 186 == 30 * (d.jm - 7) + (d.jd - 1);
    }
  }

  /** Counting back from an offset before the next new year: `leap === 1` there means that the
      year stepped back into has a 366th day. */
  lemma OffsetBeforeNewYear(years: Years, d: JalaliDate, next: int)
    requires ValidDay(years, d) && d.jm >= 7
    requires next == 1 <==> years.leap(d.jy) == 0
    ensures FromOffset(d.jy + 1, DaysInto(d.jm, d.jd) - DaysIn(years, d.jy), next) == d
  {
    var k := DaysInto(d.jm, d.jd) - DaysIn(years, d.jy);
    WithinYear(years, d);
    assert Div(d.jm, 7) == 1;
    assert k + 179 + (if next == 1 then 1 else 0) == 30 * (d.jm - 7) + (d.jd - 1);
  }

  // ----- d2j and j2d undo each other

  /** A day between two new years that are in March of `gy` and of the year after. */
  lemma YearOfDay(gy: int, first: int, next: int, jdn: int)
    requires gy > -100099 && first <= jdn < next
    requires G2d(gy, 3, 1) <= first <= G2d(gy, 3, 31) && G2d(gy + 1, 3, 1) <= next <= G2d(gy + 1, 3, 31)
    ensures D2g(jdn).gy == gy || (D2g(jdn).gy == gy + 1 && jdn - first >= 276)
  {
    Anchors(gy);
    Anchors(gy + 1);
    if jdn < G2d(gy + 1, 1, 1) {
      YearOf(jdn, gy);
    } else {
      YearOf(jdn, gy + 1);
    }
  }

  /** A day of Jalali year `jy` is in Gregorian year `jy + 621` or, late in the year, the next. */
  lemma GregorianYear(years: Years, lo: int, hi: int, d: JalaliDate)
    requires Consistent(years, lo, hi)
    requires ValidDay(years, d) && lo <= d.jy < hi
    ensures var gy := D2g(J2d(years, d)).gy;
            gy == d.jy + 621 || (gy == d.jy + 622 && DaysInto(d.jm, d.jd) >= 276)
  {
    var gy, jdn := d.jy + 621, J2d(years, d);
    assert Spaced(years, d.jy) && InMarch(years, d.jy) && InMarch(years, d.jy + 1);
    WithinYear(years, d);
    YearOfDay(gy, years.newYear(d.jy), years.newYear(d.jy + 1), jdn);
  }

  lemma LateInYear(years: Years, d: JalaliDate)
    requires ValidDay(years, d) && DaysInto(d.jm, d.jd) >= 276
    ensures d.jm >= 7
  {
  }

  /** Either Gregorian year gives the date back. */
  lemma BackFromEitherYear(years: Years, lo: int, hi: int, d: JalaliDate, gy: int)
    requires Consistent(years, lo, hi)
    requires ValidDay(years, d) && lo <= d.jy < hi
    requires gy == d.jy + 621 || (gy == d.jy + 622 && DaysInto(d.jm, d.jd) >= 276)
    ensures FromGregorianYear(years, gy, J2d(years, d)) == d
  {
    assert Spaced(years, d.jy);
    if gy == d.jy + 621 {
      OffsetInYear(years, d);
    } else {
      LateInYear(years, d);
      OffsetBeforeNewYear(years, d, years.leap(d.jy + 1));
    }
  }

  lemma JalaliRoundTrip(years: Years, lo: int, hi: int, d: JalaliDate)
    requires Consistent(years, lo, hi)
    requires ValidDay(years, d) && lo <= d.jy < hi
    ensures D2j(years, J2d(years, d)) == d
  {
    GregorianYear(years, lo, hi, d);
    BackFromEitherYear(years, lo, hi, d, D2g(J2d(years, d)).gy);
  }

  /** Two names of one day are converted into each other. */
  lemma SameDay(years: Years, lo: int, hi: int, g: GregorianDate, d: JalaliDate)
    requires Consistent(years, lo, hi) && ValidDay(years, d) && lo <= d.jy < hi
    requires Covered(g) && DayNumber(g) == J2d(years, d)
    ensures D2j(years, DayNumber(g)) == d && D2g(J2d(years, d)) == g
  {
    GregorianRoundTrip(g);
    JalaliRoundTrip(years, lo, hi, d);
  }

  /** Every day between the first new year and the last is the day of a valid date. */
  lemma {:induction false} DateOfDay(years: Years, lo: int, hi: int, jdn: int) returns (d: JalaliDate)
    requires Consistent(years, lo, hi)
    requires years.newYear(lo) <= jdn < years.newYear(hi)
    requires lo < hi
    ensures ValidDay(years, d) && lo <= d.jy < hi && J2d(years, d) == jdn
    decreases jdn - years.newYear(lo)
  {
    if jdn == years.newYear(lo) {
      d := JalaliDate(lo, 1, 1);
      MonthsFillTheYear(years, lo, 1);
    } else {
      var p := DateOfDay(years, lo, hi, jdn - 1);
      NextJalaliDay(years, lo, hi, p);
      d := NextJalali(years, p);
      if d.jy == hi {
        MonthsFillTheYear(years, hi, 1);
      }
    }
  }

  lemma DayRoundTrip(years: Years, lo: int, hi: int, jdn: int)
    requires Consistent(years, lo, hi) && lo < hi
    requires years.newYear(lo) <= jdn < years.newYear(hi)
    ensures var d := D2j(years, jdn);
            ValidDay(years, d) && lo <= d.jy < hi && J2d(years, d) == jdn
  {
    var d := DateOfDay(years, lo, hi, jdn);
    JalaliRoundTrip(years, lo, hi, d);
  }

  // ----- j2d keeps the order of dates

  lemma {:induction false} NewYearsApart(years: Years, lo: int, hi: int, a: int, b: int)
    requires Consistent(years, lo, hi) && lo <= a < b <= hi
    ensures years.newYear(a) + DaysIn(years, a) <= years.newYear(b)
    decreases b - a
  {
    assert Spaced(years, a);
    if a + 1 < b {
      NewYearsApart(years, lo, hi, a + 1, b);
    }
  }

  /** A date's day lies between the first new year and the last. */
  lemma DayBounds(years: Years, lo: int, hi: int, d: JalaliDate)
    requires Consistent(years, lo, hi)
    requires ValidDay(years, d) && lo <= d.jy < hi
    ensures years.newYear(lo) <= J2d(years, d) < years.newYear(hi)
  {
    WithinYear(years, d);
    assert Spaced(years, d.jy);
    if lo < d.jy {
      NewYearsApart(years, lo, hi, lo, d.jy);
    }
    if d.jy + 1 < hi {
      NewYearsApart(years, lo, hi, d.jy + 1, hi);
    }
  }

  lemma MonthsApart(years: Years, a: JalaliDate, b: JalaliDate)
    requires ValidDay(years, a) && ValidDay(years, b) && a.jy == b.jy && Before(a, b)
    ensures DaysInto(a.jm, a.jd) < DaysInto(b.jm, b.jd)
  {
    assert Div(a.jm, 7) == if a.jm < 7 then 0 else 1;
    assert Div(b.jm, 7) == if b.jm < 7 then 0 else 1;
  }

  lemma LaterIsGreater(years: Years, lo: int, hi: int, a: JalaliDate, b: JalaliDate)
    requires Consistent(years, lo, hi)
    requires ValidDay(years, a) && lo <= a.jy < hi && ValidDay(years, b) && lo <= b.jy < hi
    requires Before(a, b)
    ensures J2d(years, a) < J2d(years, b)
  {
    WithinYear(years, a);
    WithinYear(years, b);
    if a.jy < b.jy {
      NewYearsApart(years, lo, hi, a.jy, b.jy);
    } else {
      MonthsApart(years, a, b);
    }
  }

  lemma OrderIsomorphism(years: Years, lo: int, hi: int, a: JalaliDate, b: JalaliDate)
    requires Consistent(years, lo, hi)
    requires ValidDay(years, a) && lo <= a.jy < hi && ValidDay(years, b) && lo <= b.jy < hi
    ensures J2d(years, a) < J2d(years, b) <==> Before(a, b)
  {
    if Before(a, b) {
      LaterIsGreater(years, lo, hi, a, b);
    } else if a != b {
      LaterIsGreater(years, lo, hi, b, a);
    }
  }

  lemma OneDayOn(years: Years, lo: int, hi: int, d: JalaliDate, n: JalaliDate)
    requires Consistent(years, lo, hi)
    requires ValidDay(years, d) && lo <= d.jy < hi && ValidDay(years, n) && lo <= n.jy < hi
    requires J2d(years, n) == J2d(years, d) + 1
    ensures n == NextJalali(years, d)
  {
    NextJalaliDay(years, lo, hi, d);
    var m := NextJalali(years, d);
    if m.jy < hi {
      OrderIsomorphism(years, lo, hi, m, n);
      OrderIsomorphism(years, lo, hi, n, m);
    } else {
      DayBounds(years, lo, hi, n);
      MonthsFillTheYear(years, hi, 1);
    }
  }

  /** The day after, converted, is the date after. */
  lemma NextDayConverted(years: Years, lo: int, hi: int, jdn: int)
    requires Consistent(years, lo, hi) && lo < hi
    requires years.newYear(lo) <= jdn && jdn + 1 < years.newYear(hi)
    ensures D2j(years, jdn + 1) == NextJalali(years, D2j(years, jdn))
  {
    var d := DateOfDay(years, lo, hi, jdn);
    var n := DateOfDay(years, lo, hi, jdn + 1);
    JalaliRoundTrip(years, lo, hi, d);
    JalaliRoundTrip(years, lo, hi, n);
    OneDayOn(years, lo, hi, d, n);
  }

  // ----- Leap years

  /** The leap years from `lo` on, before `jy`, counted one at a time. */
  function LeapYears(years: Years, lo: int, jy: int): int
    decreases jy - lo
  {
    if jy <= lo then 0 else LeapYears(years, lo, jy - 1) + (if IsLeap(years, jy - 1) then 1 else 0)
  }

  lemma {:induction false} NewYearCountsLeapYears(years: Years, lo: int, hi: int, jy: int)
    requires Consistent(years, lo, hi) && lo <= jy <= hi
    ensures years.newYear(jy) == years.newYear(lo) + 365 * (jy - lo) + LeapYears(years, lo, jy)
    decreases jy - lo
  {
    if lo < jy {
      NewYearCountsLeapYears(years, lo, hi, jy - 1);
      assert Spaced(years, jy - 1);
    }
  }

  /** The leap field of a year leads to that of the next. */
  predicate Cycles(years: Years, jy: int) {
    0 <= years.leap(jy) <= 4 && Follows(years.leap(jy), years.leap(jy + 1))
  }

  /** The leap field is the number of years since the last leap year. */
  lemma {:induction false} SinceLeapYear(years: Years, a: int, jy: int)
    requires a <= jy && IsLeap(years, a)
    requires forall y :: a <= y <= jy ==> Cycles(years, y)
    requires forall y :: a < y <= jy ==> !IsLeap(years, y)
    ensures years.leap(jy) == jy - a <= 4
    decreases jy - a
  {
    assert Cycles(years, jy);
    if a < jy {
      SinceLeapYear(years, a, jy - 1);
      assert Cycles(years, jy - 1) && !IsLeap(years, jy);
    }
  }

  /** The leap field counts back to the last leap year from `lo` on, four years before at most. */
  ghost predicate CountsBack(years: Years, lo: int, jy: int) {
    var a := jy - years.leap(jy);
    lo <= a <= jy <= a + 4 && IsLeap(years, a) && forall y :: a < y <= jy ==> !IsLeap(years, y)
  }

  lemma {:induction false} LeapFieldCountsBack(years: Years, lo: int, jy: int)
    requires lo <= jy && IsLeap(years, lo)
    requires forall y :: lo <= y <= jy ==> Cycles(years, y)
    ensures CountsBack(years, lo, jy)
    decreases jy - lo
  {
    if lo < jy {
      LeapFieldCountsBack(years, lo, jy - 1);
      assert Cycles(years, jy - 1) && Cycles(years, jy);
    }
  }

  /** After a leap year come three or four common years, then a leap year again. */
  lemma FourOrFiveApart(years: Years, a: int, b: int)
    requires a < b && IsLeap(years, a) && IsLeap(years, b)
    requires forall y :: a <= y < b ==> Cycles(years, y)
    requires forall y :: a < y < b ==> !IsLeap(years, y)
    ensures b - a in {4, 5}
  {
    SinceLeapYear(years, a, b - 1);
    assert Cycles(years, b - 1);
  }
}
