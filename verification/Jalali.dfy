/** The Jalali calendar the program ships: its own break table, and conversion to and from the
    Gregorian calendar, always through the Julian Day Number. */
module Jalali {
  import opened Gregorian
  import opened JalaliTable
  import opened JalaliYears

  const BREAKS: Table :=
    [-61, 9, 38, 199, 426, 686, 756, 818, 1111, 1181, 1210, 1635, 2060, 2097, 2192, 2262, 2324, 2394, 2456, 3178]

  /** First year of the table, and the first year after it. */
  const FIRST := -61
  const END := 3178

  predicate InTable(jy: int) {
    FIRST <= jy < END
  }

  function JalCal(jy: int): Cal {
    CalOf(BREAKS, jy)
  }

  /** What `j2d` and `d2j` ask of `jalCal`: where the year begins, and its leap field. */
  function YearsOf(breaks: Table): Years {
    Years(jy => G2d(CalOf(breaks, jy).gy, 3, CalOf(breaks, jy).march), jy => CalOf(breaks, jy).leap)
  }

  const YEARS: Years := YearsOf(BREAKS)

  predicate IsJalaliLeapYear(jy: int) {
    IsLeap(YEARS, jy)
  }

  function JalaliMonthLength(jy: int, jm: int): int {
    JalaliYears.MonthLength(YEARS, jy, jm)
  }

  predicate ValidJalali(d: JalaliDate) {
    InTable(d.jy) && ValidDay(YEARS, d)
  }

  function ToJalali(g: GregorianDate): JalaliDate {
    D2j(YEARS, DayNumber(g))
  }

  function ToGregorian(j: JalaliDate): GregorianDate {
    D2g(J2d(YEARS, j))
  }

  lemma FromTable(breaks: Table, gy: int, jdn: int)
    ensures FromGregorianYear(YearsOf(breaks), gy, jdn)
         == FromOffset(gy - 621,
                       jdn - G2d(gy, 3, CalOf(breaks, gy - 621).march),
                       CalOf(breaks, gy - 621).leap)
  {
  }

  /** `d2j` once the Gregorian year is known. */
  method ComputeFrom(breaks: Table, gy: int, jdn: int) returns (d: JalaliDate)
    ensures d == FromGregorianYear(YearsOf(breaks), gy, jdn)
  {
    var jy := gy - 621;
    var r := ComputeJalCal(breaks, jy);
    var jdn1f := G2d(gy, 3, r.march);
    FromTable(breaks, gy, jdn);
    d := SplitOffset(jy, jdn - jdn1f, r.leap);
  }

  /** `d2j` as the program runs it. */
  method ComputeD2j(jdn: int) returns (d: JalaliDate)
    ensures d == D2j(YEARS, jdn)
  {
    d := ComputeFrom(BREAKS, D2g(jdn).gy, jdn);
  }

  // ----- The shipped table is one the calendar can be built on

  /** Leap years counted up to each break. */
  const COUNTS: seq<int> :=
    [-14, 3, 10, 49, 104, 167, 184, 199, 270, 287, 294, 397, 500, 509, 532, 549, 564, 581, 596, 771]

  /** The segment lengths of the table, with the leap years of each. */
  const SEGMENTS: set<(int, int)> :=
    {(29, 7), (37, 9), (62, 15), (70, 17), (95, 23), (161, 39), (227, 55), (260, 63), (293, 71), (425, 103), (722, 175)}

  lemma SegmentShape(k: nat)
    requires k < 19
    ensures (BREAKS[k + 1] - BREAKS[k], COUNTS[k + 1] - COUNTS[k]) in SEGMENTS
  {
  }

  lemma SegmentLeaps(jump: int, leaps: int)
    requires (jump, leaps) in SEGMENTS
    ensures Regular(jump) && LeapsIn(jump) == leaps
  {
  }

  lemma TableIsRegular()
    ensures RegularTable(BREAKS) && CountsOf(BREAKS, COUNTS)
  {
    forall k | 0 <= k < 19
      ensures Regular(BREAKS[k + 1] - BREAKS[k])
      ensures COUNTS[k + 1] - COUNTS[k] == LeapsIn(BREAKS[k + 1] - BREAKS[k])
    {
      SegmentShape(k);
      SegmentLeaps(BREAKS[k + 1] - BREAKS[k], COUNTS[k + 1] - COUNTS[k]);
    }
  }

  lemma TableSpan(jy: int)
    ensures Within(BREAKS, jy) <==> InTable(jy)
  {
  }

  lemma WindowFromFirst()
    ensures Windowed(-61, 70, -14)
  {
  }

  lemma WindowFrom9()
    ensures Windowed(9, 29, 3)
  {
  }

  lemma WindowFrom38()
    ensures Windowed(38, 161, 10)
  {
  }

  lemma WindowFrom199()
    ensures Windowed(199, 227, 49)
  {
  }

  lemma WindowFrom426()
    ensures Windowed(426, 260, 104)
  {
  }

  lemma WindowFrom686()
    ensures Windowed(686, 70, 167)
  {
  }

  lemma WindowFrom756()
    ensures Windowed(756, 62, 184)
  {
  }

  lemma WindowFrom818()
    ensures Windowed(818, 293, 199)
  {
  }

  lemma WindowFrom1111()
    ensures Windowed(1111, 70, 270)
  {
  }

  lemma WindowFrom1181()
    ensures Windowed(1181, 29, 287)
  {
  }

  lemma WindowFrom1210()
    ensures Windowed(1210, 425, 294)
  {
  }

  lemma WindowFrom1635()
    ensures Windowed(1635, 425, 397)
  {
  }

  lemma WindowFrom2060()
    ensures Windowed(2060, 37, 500)
  {
  }

  lemma WindowFrom2097()
    ensures Windowed(2097, 95, 509)
  {
  }

  lemma WindowFrom2192()
    ensures Windowed(2192, 70, 532)
  {
  }

  lemma WindowFrom2262()
    ensures Windowed(2262, 62, 549)
  {
  }

  lemma WindowFrom2324()
    ensures Windowed(2324, 70, 564)
  {
  }

  lemma WindowFrom2394()
    ensures Windowed(2394, 62, 581)
  {
  }

  lemma WindowFrom2456()
    ensures Windowed(2456, 722, 596)
  {
  }

  lemma WindowFrom3178()
    ensures Windowed(3178, 1, 771)
  {
  }

  /** What holds of each stretch of the table, written out, holds of its `k`-th. */
  lemma AtEveryBreak(holds: (int, int, int) -> bool, k: nat)
    requires k < |BREAKS|
    requires holds(-61, 70, -14) && holds(9, 29, 3) && holds(38, 161, 10) && holds(199, 227, 49)
    requires holds(426, 260, 104) && holds(686, 70, 167) && holds(756, 62, 184) && holds(818, 293, 199)
    requires holds(1111, 70, 270) && holds(1181, 29, 287) && holds(1210, 425, 294) && holds(1635, 425, 397)
    requires holds(2060, 37, 500) && holds(2097, 95, 509) && holds(2192, 70, 532) && holds(2262, 62, 549)
    requires holds(2324, 70, 564) && holds(2394, 62, 581) && holds(2456, 722, 596) && holds(3178, 1, 771)
    ensures holds(BREAKS[k], Reach(BREAKS, k), COUNTS[k])
  {
  }

  lemma WindowAtBreak(k: nat)
    requires k < |BREAKS|
    ensures Windowed(BREAKS[k], Reach(BREAKS, k), COUNTS[k])
  {
    WindowFromFirst();
    WindowFrom9();
    WindowFrom38();
    WindowFrom199();
    WindowFrom426();
    WindowFrom686();
    WindowFrom756();
    WindowFrom818();
    WindowFrom1111();
    WindowFrom1181();
    WindowFrom1210();
    WindowFrom1635();
    WindowFrom2060();
    WindowFrom2097();
    WindowFrom2192();
    WindowFrom2262();
    WindowFrom2324();
    WindowFrom2394();
    WindowFrom2456();
    WindowFrom3178();
    AtEveryBreak((s, reach, count) => Windowed(s, reach, count), k);
  }

  lemma Placement(jy: int)
    requires InTable(jy) || jy == END
    ensures var k := Segment(BREAKS, jy);
            && LeapsBefore(BREAKS, k) == COUNTS[k]
            && (BREAKS[k] == jy || Reach(BREAKS, k) == Jump(BREAKS, k))
            && BREAKS[k] <= jy < BREAKS[k] + Reach(BREAKS, k)
            && Regular(Jump(BREAKS, k))
  {
    TableIsRegular();
    TableSpan(jy);
    Placed(BREAKS, jy);
    CountedAtBreak(BREAKS, COUNTS, Segment(BREAKS, jy));
  }

  /** New year is on 20, 21 or 22 March in every year of the table and in the year after it. */
  lemma MarchWindow(jy: int)
    requires InTable(jy) || jy == END
    ensures 20 <= JalCal(jy).march <= 22
  {
    var k := Segment(BREAKS, jy);
    Placement(jy);
    WindowAtBreak(k);
    MarchInSegment(BREAKS, COUNTS[k], jy);
  }

  lemma Nowadays()
    ensures LeapJ(BREAKS, 1281) == 312 && LeapJ(BREAKS, 1357) == 330 && LeapJ(BREAKS, 1403) == 341
  {
    TableIsRegular();
    NowadaysIn(BREAKS, COUNTS, 1281);
    NowadaysIn(BREAKS, COUNTS, 1357);
    NowadaysIn(BREAKS, COUNTS, 1403);
    NowadaysCounts();
  }

  /** Each of the three days is the new year of some year. */
  lemma MarchReached()
    ensures JalCal(1403).march == 20 && JalCal(1357).march == 21 && JalCal(1281).march == 22
  {
    Nowadays();
    GregorianCounts();
    MarchOf(BREAKS, 1403, 341, 341);
    MarchOf(BREAKS, 1357, 330, 329);
    MarchOf(BREAKS, 1281, 312, 310);
  }

  // ----- The shipped years are consistent

  /** The Gregorian leap days in `g2d` cancel against those in `march`. */
  lemma LeapTermsCancel(gy: int, day: int)
    requires gy >= 0
    ensures G2d(gy, 3, day) == 365 * gy + LeapG(gy) + day + 1721269
  {
    ClosedForm(gy, 3, day);
    assert (gy + 100100) / 100 == gy / 100 + 1001;
    assert (gy + 100100) / 4 == gy / 4 + 25025;
  }

  /** A new year is 365 days a year, and the leap days counted by `leapJ`, after a fixed day. */
  lemma NewYearDay(jy: int)
    requires jy >= -621
    ensures YEARS.newYear(jy) == 365 * jy + LeapJ(BREAKS, jy) + 1947954
  {
    LeapTermsCancel(jy + 621, JalCal(jy).march);
  }

  lemma YearStep(jy: int)
    requires InTable(jy)
    ensures Spaced(YEARS, jy)
    ensures Cycles(YEARS, jy)
  {
    TableIsRegular();
    TableSpan(jy);
    TableStep(BREAKS, jy);
    NewYearDay(jy);
    NewYearDay(jy + 1);
  }

  lemma NewYearInMarch(jy: int)
    requires InTable(jy) || jy == END
    ensures InMarch(YEARS, jy)
  {
    MarchWindow(jy);
    LeapTermsCancel(jy + 621, 1);
    LeapTermsCancel(jy + 621, 31);
    LeapTermsCancel(jy + 621, JalCal(jy).march);
  }

  lemma YearsAreConsistent()
    ensures Consistent(YEARS, FIRST, END)
  {
    forall jy | FIRST <= jy < END
      ensures Spaced(YEARS, jy)
    {
      YearStep(jy);
    }
    forall jy | FIRST <= jy <= END
      ensures InMarch(YEARS, jy)
    {
      NewYearInMarch(jy);
    }
  }

  // ----- What the calendar promises

  /** The days the table describes: 20 March 560 up to, not including, 20 March 3799. */
  predicate InSpan(jdn: int) {
    G2d(560, 3, 20) <= jdn < G2d(3799, 3, 20)
  }

  lemma SpanBegins()
    ensures YEARS.newYear(FIRST) == G2d(560, 3, 20)
  {
    TableIsRegular();
    CountAtBreakYear(BREAKS, COUNTS, 0);
    NewYearDay(FIRST);
    LeapTermsCancel(560, 20);
  }

  lemma SpanEnds()
    ensures YEARS.newYear(END) == G2d(3799, 3, 20)
  {
    TableIsRegular();
    CountAtBreakYear(BREAKS, COUNTS, 19);
    NewYearDay(END);
    LeapTermsCancel(3799, 20);
  }

  /** Jalali to Gregorian and back. */
  lemma JalaliThereAndBack(j: JalaliDate)
    requires ValidJalali(j)
    ensures ToJalali(ToGregorian(j)) == j
    ensures Covered(ToGregorian(j)) && InSpan(DayNumber(ToGregorian(j)))
  {
    YearsAreConsistent();
    SpanBegins();
    SpanEnds();
    DayBounds(YEARS, FIRST, END, j);
    FirstDay();
    LeapTermsCancel(560, 20);
    DayNumberRoundTrip(J2d(YEARS, j));
    JalaliRoundTrip(YEARS, FIRST, END, j);
  }

  /** Gregorian to Jalali and back. */
  lemma GregorianThereAndBack(g: GregorianDate)
    requires Covered(g) && InSpan(DayNumber(g))
    ensures ValidJalali(ToJalali(g)) && ToGregorian(ToJalali(g)) == g
  {
    YearsAreConsistent();
    SpanBegins();
    SpanEnds();
    DayRoundTrip(YEARS, FIRST, END, DayNumber(g));
    GregorianRoundTrip(g);
  }

  lemma NextDayInSpan(jdn: int, next: int)
    requires InSpan(jdn) && InSpan(next) && next == jdn + 1
    ensures D2j(YEARS, next) == NextJalali(YEARS, D2j(YEARS, jdn))
  {
    YearsAreConsistent();
    SpanBegins();
    SpanEnds();
    NextDayConverted(YEARS, FIRST, END, jdn);
  }

  /** The conversion carries the day after a Gregorian date to the day after its Jalali date. */
  lemma ConversionFollowsTheCalendars(g: GregorianDate)
    requires Covered(g) && InSpan(DayNumber(g)) && InSpan(DayNumber(NextDate(g)))
    ensures ToJalali(NextDate(g)) == NextJalali(YEARS, ToJalali(g))
  {
    NextDayNumber(g);
    NextDayInSpan(DayNumber(g), DayNumber(NextDate(g)));
  }

  /** The date after a date, by the month lengths, is the next day, also past the table's last year. */
  lemma NextDayCounted(j: JalaliDate)
    requires ValidJalali(j)
    ensures J2d(YEARS, NextJalali(YEARS, j)) == J2d(YEARS, j) + 1
    ensures ValidJalali(NextJalali(YEARS, j)) || NextJalali(YEARS, j) == JalaliDate(END, 1, 1)
  {
    YearsAreConsistent();
    NextJalaliDay(YEARS, FIRST, END, j);
  }

  /** Later dates, and only they, have greater day numbers. */
  lemma DatesInOrder(a: JalaliDate, b: JalaliDate)
    requires ValidJalali(a) && ValidJalali(b)
    ensures J2d(YEARS, a) < J2d(YEARS, b) <==> Before(a, b)
  {
    YearsAreConsistent();
    OrderIsomorphism(YEARS, FIRST, END, a, b);
  }

  /** 366 days exactly in the years the leap field calls leap. */
  lemma YearLength(jy: int)
    requires InTable(jy)
    ensures J2d(YEARS, JalaliDate(jy + 1, 1, 1)) - J2d(YEARS, JalaliDate(jy, 1, 1))
         == if IsJalaliLeapYear(jy) then 366 else 365
  {
    YearStep(jy);
    MonthsFillTheYear(YEARS, jy, 1);
  }

  /** A month is as long as its first day is before the next month's first, or the next year's. */
  lemma MonthLengthCounts(jy: int, jm: int)
    requires InTable(jy) && 1 <= jm <= 12
    ensures JalaliMonthLength(jy, jm)
         == J2d(YEARS, if jm < 12 then JalaliDate(jy, jm + 1, 1) else JalaliDate(jy + 1, 1, 1))
            - J2d(YEARS, JalaliDate(jy, jm, 1))
  {
    YearStep(jy);
    MonthCounted(YEARS, jy, jm);
  }

  /** `jalCal`'s walk counts, from -14 on, the leap years of the table one at a time. */
  lemma WalkCountsLeapYears(jy: int)
    requires FIRST <= jy <= END
    ensures LeapJ(BREAKS, jy) == -14 + LeapYears(YEARS, FIRST, jy)
  {
    YearsAreConsistent();
    NewYearCountsLeapYears(YEARS, FIRST, END, jy);
    TableIsRegular();
    CountAtBreakYear(BREAKS, COUNTS, 0);
    NewYearDay(FIRST);
    NewYearDay(jy);
  }

  lemma LeapOfYear(breaks: Table, jy: int)
    ensures YearsOf(breaks).leap(jy) == Leap(breaks, jy) == CalOf(breaks, jy).leap
  {
  }

  lemma FirstYearIsLeap()
    ensures IsJalaliLeapYear(FIRST)
  {
    TableIsRegular();
    CountAtBreakYear(BREAKS, COUNTS, 0);
    LeapOfYear(BREAKS, FIRST);
  }

  /** The leap field of a year counts back to the last leap year, four years before it at most. */
  lemma YearsSinceLeapYear(jy: int)
    requires InTable(jy)
    ensures CountsBack(YEARS, FIRST, jy)
  {
    FirstYearIsLeap();
    forall y | FIRST <= y <= jy
      ensures Cycles(YEARS, y)
    {
      YearStep(y);
    }
    LeapFieldCountsBack(YEARS, FIRST, jy);
  }

  /** After a leap year come three or four common years, then a leap year again. */
  lemma LeapYearsFourOrFiveApart(a: int, b: int)
    requires FIRST <= a < b < END && IsJalaliLeapYear(a) && IsJalaliLeapYear(b)
    requires forall jy :: a < jy < b ==> !IsLeap(YEARS, jy)
    ensures b - a in {4, 5}
  {
    forall jy | a <= jy < b
      ensures Cycles(YEARS, jy)
    {
      YearStep(jy);
    }
    FourOrFiveApart(YEARS, a, b);
  }

  // ----- Points that pin the table

  lemma NewYears1357And1403()
    ensures YEARS.newYear(1357) == 2443589 && YEARS.newYear(1403) == 2460390
  {
    Nowadays();
    NewYearDay(1357);
    NewYearDay(1403);
  }

  lemma GregorianReferenceDays()
    ensures DayNumber(GregorianDate(1979, 2, 11)) == 2443916
    ensures DayNumber(GregorianDate(2024, 3, 20)) == 2460390
  {
    ClosedForm(1979, 2, 11);
    ClosedForm(2024, 3, 20);
  }

  lemma JalaliReferenceDays(years: Years)
    requires years.newYear(1357) == 2443589 && years.newYear(1403) == 2460390
    ensures ValidDay(years, JalaliDate(1357, 11, 22)) && J2d(years, JalaliDate(1357, 11, 22)) == 2443916
    ensures ValidDay(years, JalaliDate(1403, 1, 1)) && J2d(years, JalaliDate(1403, 1, 1)) == 2460390
  {
    assert DaysInto(11, 22) == 327 && DaysInto(1, 1) == 0;
  }

  lemma BothWays(g: GregorianDate, j: JalaliDate)
    requires Covered(g) && ValidJalali(j) && DayNumber(g) == J2d(YEARS, j)
    ensures ToJalali(g) == j && ToGregorian(j) == g
  {
    YearsAreConsistent();
    SameDay(YEARS, FIRST, END, g, j);
  }

  /** 11 February 1979 is 22 Bahman 1357, and 20 March 2024 is 1 Farvardin 1403, both ways. */
  lemma ReferenceDates(g: GregorianDate, j: JalaliDate)
    requires || (g == GregorianDate(1979, 2, 11) && j == JalaliDate(1357, 11, 22))
             || (g == GregorianDate(2024, 3, 20) && j == JalaliDate(1403, 1, 1))
    ensures ToJalali(g) == j && ToGregorian(j) == g
  {
    GregorianReferenceDays();
    NewYears1357And1403();
    JalaliReferenceDays(YEARS);
    BothWays(g, j);
  }

  /** Four years before the table the leap field and the day count part company: -65 would be a
      leap year of 365 days. */
  lemma BeforeTheTable()
    ensures IsJalaliLeapYear(-65)
    ensures YEARS.newYear(-64) - YEARS.newYear(-65) == 365
  {
    BeforeTheFirstBreak(BREAKS);
    NewYearDay(-65);
    NewYearDay(-64);
  }
}
