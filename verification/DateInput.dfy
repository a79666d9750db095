/** The date input: Jalali in, Gregorian `YYYY-MM-DD` out, and Jalali again when it is read back. */
module DateInput {
  import opened Options
  import opened Gregorian
  import opened JalaliYears
  import opened Jalali

  /** What the stored value selects. A value with fewer than three parts passes the NaN test,
      because `undefined` is not NaN, and selects a date whose fields are all NaN. */
  datatype Selection = Nothing | Broken | Chosen(date: JalaliDate)

  datatype Parts = NotNumbers | TooFew | Parts(date: GregorianDate)

  // ----- Numbers as text

  function Digit(d: nat): char
    requires d < 10
  {
    '0' + d as char
  }

  predicate IsDigit(c: char) {
    '0' <= c <= '9'
  }

  predicate AllDigits(s: string) {
    forall i :: 0 <= i < |s| ==> IsDigit(s[i])
  }

  function Digits(n: nat): (s: string)
    ensures |s| >= 1 && AllDigits(s)
  {
    if n < 10 then [Digit(n)] else Digits(n / 10) + [Digit(n % 10)]
  }

  function Show(n: int): string {
    if n >= 0 then Digits(n) else "-" + Digits(-n)
  }

  function PadStart(s: string, width: nat): string
    decreases width - |s|
  {
    if |s| >= width then s else PadStart("0" + s, width)
  }

  /** The number a string of digits spells, 0 for none at all. */
  function Value(s: string): nat
    requires AllDigits(s)
  {
    if s == [] then 0 else Value(s[..|s| - 1]) * 10 + (s[|s| - 1] - '0') as nat
  }

  /** `Number` on the parts of a date; None is NaN. */
  function ToNumber(s: string): Option<int> {
    if AllDigits(s) then Some(Value(s)) else None
  }

  function Split(s: string, sep: char): (parts: seq<string>)
    ensures |parts| >= 1
  {
    if s == [] then [[]]
    else
      var rest := Split(s[1..], sep);
      if s[0] == sep then [[]] + rest else [[s[0]] + rest[0]] + rest[1..]
  }

  // ----- The component's two directions

  function Text(g: GregorianDate): string {
    PadStart(Show(g.gy), 4) + "-" + PadStart(Show(g.gm), 2) + "-" + PadStart(Show(g.gd), 2)
  }

  function Emit(jy: int, jm: int, jd: int): string {
    var maxDay := JalaliMonthLength(jy, jm);
    Text(ToGregorian(JalaliDate(jy, jm, if jd < maxDay then jd else maxDay)))
  }

  /** The date of the first three parts, when they are numbers and there are as many. */
  function FromParts(parts: seq<string>): Parts {
    if exists i :: 0 <= i < |parts| && i < 3 && ToNumber(parts[i]) == None then NotNumbers
    else if |parts| < 3 then TooFew
    else Parts(GregorianDate(ToNumber(parts[0]).value, ToNumber(parts[1]).value, ToNumber(parts[2]).value))
  }

  function ReadParts(value: string): Parts {
    FromParts(Split(value, '-'))
  }

  function Parse(value: string): Selection {
    if value == "" then Nothing
    else
      match ReadParts(value)
      case NotNumbers => Nothing
      case TooFew => Broken
      case Parts(g) => Chosen(ToJalali(g))
  }

  // ----- Reading back what was written

  lemma {:induction false} DigitsSpell(n: nat)
    ensures Value(Digits(n)) == n
  {
    if n >= 10 {
      DigitsSpell(n / 10);
      assert Digits(n)[..|Digits(n)| - 1] == Digits(n / 10);
    }
  }

  lemma {:induction false} LeadingZero(s: string)
    requires AllDigits(s)
    ensures AllDigits("0" + s) && Value("0" + s) == Value(s)
  {
    var z := "0" + s;
    assert forall i :: 1 <= i < |z| ==> z[i] == s[i - 1];
    if s != [] {
      LeadingZero(s[..|s| - 1]);
      assert z[..|z| - 1] == "0" + s[..|s| - 1];
    }
  }

  lemma {:induction false} PaddingSpells(s: string, width: nat)
    requires AllDigits(s)
    ensures AllDigits(PadStart(s, width)) && Value(PadStart(s, width)) == Value(s)
    ensures |PadStart(s, width)| == if |s| < width then width else |s|
    decreases width - |s|
  {
    if |s| < width {
      LeadingZero(s);
      PaddingSpells("0" + s, width);
    }
  }

  function PowerOfTen(width: nat): nat {
    if width == 0 then 1 else 10 * PowerOfTen(width - 1)
  }

  lemma {:induction false} DigitCount(n: nat, width: nat)
    requires width >= 1 && n < PowerOfTen(width)
    ensures |Digits(n)| <= width
  {
    if n >= 10 {
      DigitCount(n / 10, width - 1);
    }
  }

  /** A number that fits is written in full and read back. */
  lemma Written(n: nat, width: nat)
    requires width >= 1 && n < PowerOfTen(width)
    ensures var s := PadStart(Show(n), width);
            |s| == width && AllDigits(s) && ToNumber(s) == Some(n)
  {
    DigitsSpell(n);
    PaddingSpells(Digits(n), width);
    DigitCount(n, width);
  }

  lemma {:induction false} SplitAt(a: string, b: string, sep: char)
    requires sep !in a
    ensures Split(a + [sep] + b, sep) == [a] + Split(b, sep)
  {
    var s := a + [sep] + b;
    if a == [] {
      assert s[1..] == b;
    } else {
      SplitAt(a[1..], b, sep);
      assert s[1..] == a[1..] + [sep] + b;
      assert [a[0]] + a[1..] == a;
    }
  }

  lemma {:induction false} SplitLast(a: string, sep: char)
    requires sep !in a
    ensures Split(a, sep) == [a]
  {
    if a != [] {
      SplitLast(a[1..], sep);
      assert [a[0]] + a[1..] == a;
    }
  }

  lemma SplitThree(a: string, b: string, c: string)
    requires '-' !in a && '-' !in b && '-' !in c
    ensures Split(a + "-" + b + "-" + c, '-') == [a, b, c]
  {
    assert a + "-" + b + "-" + c == a + ['-'] + (b + ['-'] + c);
    SplitAt(a, b + ['-'] + c, '-');
    SplitAt(b, c, '-');
    SplitLast(c, '-');
  }

  lemma NoDash(s: string)
    requires AllDigits(s)
    ensures '-' !in s
  {
  }

  /** Three written numbers are read back as they were. */
  lemma ReadBack(a: string, b: string, c: string, gy: int, gm: int, gd: int)
    requires AllDigits(a) && AllDigits(b) && AllDigits(c)
    requires ToNumber(a) == Some(gy) && ToNumber(b) == Some(gm) && ToNumber(c) == Some(gd)
    ensures ReadParts(a + "-" + b + "-" + c) == Parts(GregorianDate(gy, gm, gd))
  {
    NoDash(a);
    NoDash(b);
    NoDash(c);
    SplitThree(a, b, c);
  }

  /** Gregorian years of the span have at most four digits. */
  lemma YearHasFourDigits(g: GregorianDate)
    requires Covered(g) && InSpan(DayNumber(g))
    ensures 560 <= g.gy < 3800
  {
    LeapTermsCancel(560, 20);
    LeapTermsCancel(3799, 20);
    Anchors(560);
    Anchors(3799);
    if g.gy < -100099 {
      BeforeFirstWholeYear(g);
      FirstDaysApart(-100099, 560);
    } else {
      Gregorian.WithinYear(g);
      if g.gy < 560 {
        FirstDaysApart(g.gy, 560);
      }
    }
    if g.gy >= 3800 {
      FirstDaysApart(3799, g.gy);
    }
  }

  /** `YYYY-MM-DD`. */
  predicate IsIsoDate(s: string) {
    |s| == 10 && AllDigits(s[..4]) && s[4] == '-' && AllDigits(s[5..7]) && s[7] == '-' && AllDigits(s[8..])
  }

  lemma IsoText(a: string, b: string, c: string)
    requires |a| == 4 && |b| == 2 && |c| == 2 && AllDigits(a) && AllDigits(b) && AllDigits(c)
    ensures var s := a + "-" + b + "-" + c;
            IsIsoDate(s) && s[..4] == a && s[5..7] == b && s[8..] == c
  {
    var s := a + "-" + b + "-" + c;
    assert s[..4] == a && s[5..7] == b && s[8..] == c;
  }

  /** `YYYY-MM-DD`, with the year, month and day of `g` in decimal. */
  predicate Spells(s: string, g: GregorianDate) {
    IsIsoDate(s) && Value(s[..4]) == g.gy && Value(s[5..7]) == g.gm && Value(s[8..]) == g.gd
  }

  /** Decimal: each digit counts for its place among the ten, and moves those before it up by ten. */
  lemma Decimal(s: string, d: nat)
    requires AllDigits(s) && d < 10
    ensures Value("") == 0 && AllDigits(s + ["0123456789"[d]])
    ensures Value(s + ["0123456789"[d]]) == 10 * Value(s) + d
  {
    assert "0123456789"[d] == Digit(d);
    assert (s + [Digit(d)])[..|s|] == s;
  }

  lemma EmittedText(g: GregorianDate)
    requires 0 <= g.gy < 10000 && 1 <= g.gm <= 12 && 1 <= g.gd <= 31
    ensures Spells(Text(g), g) && ReadParts(Text(g)) == Parts(g)
  {
    assert PowerOfTen(2) == 100;
    assert PowerOfTen(4) == 10000;
    Written(g.gy, 4);
    Written(g.gm, 2);
    Written(g.gd, 2);
    IsoText(PadStart(Show(g.gy), 4), PadStart(Show(g.gm), 2), PadStart(Show(g.gd), 2));
    ReadBack(PadStart(Show(g.gy), 4), PadStart(Show(g.gm), 2), PadStart(Show(g.gd), 2), g.gy, g.gm, g.gd);
  }

  lemma DateIsReadBack(j: JalaliDate)
    requires ValidJalali(j)
    ensures Spells(Text(ToGregorian(j)), ToGregorian(j)) && Parse(Text(ToGregorian(j))) == Chosen(j)
  {
    JalaliThereAndBack(j);
    YearHasFourDigits(ToGregorian(j));
    EmittedText(ToGregorian(j));
  }

  /** Choosing a date and reading back what was stored gives the year and month chosen, and the day
      chosen or the last day of that month; what is stored spells that day's Gregorian date. */
  lemma EmittedDateIsReadBack(jy: int, jm: int, jd: int)
    requires InTable(jy) && 1 <= jm <= 12 && jd >= 1
    ensures var length := JalaliMonthLength(jy, jm);
            var j := JalaliDate(jy, jm, if jd < length then jd else length);
            Parse(Emit(jy, jm, jd)) == Chosen(j) && Spells(Emit(jy, jm, jd), ToGregorian(j))
  {
    var length := JalaliMonthLength(jy, jm);
    DateIsReadBack(JalaliDate(jy, jm, if jd < length then jd else length));
  }

  lemma SameDayStored(j: JalaliDate)
    requires ValidJalali(j)
    ensures DayNumber(ToGregorian(j)) == J2d(YEARS, j)
  {
    YearsAreConsistent();
    SpanBegins();
    DayBounds(YEARS, FIRST, END, j);
    FirstDay();
    LeapTermsCancel(560, 20);
    DayNumberRoundTrip(J2d(YEARS, j));
  }

  /** The length a date is clamped to is the length dates are valid up to. */
  lemma LengthsAgree(jy: int, jm: int)
    requires InTable(jy) && 1 <= jm <= 12
    ensures JalaliMonthLength(jy, jm) == JalaliYears.MonthLength(YEARS, jy, jm)
  {
    MonthLengthCounts(jy, jm);
    YearStep(jy);
    MonthCounted(YEARS, jy, jm);
  }

  /** Every valid date is stored as itself: what is stored spells the Gregorian date of the same day,
      and is read back as the date chosen. */
  lemma ValidDateIsStored(j: JalaliDate)
    requires ValidJalali(j)
    ensures Parse(Emit(j.jy, j.jm, j.jd)) == Chosen(j)
    ensures Spells(Emit(j.jy, j.jm, j.jd), ToGregorian(j)) && DayNumber(ToGregorian(j)) == J2d(YEARS, j)
  {
    DateIsReadBack(j);
    SameDayStored(j);
    LengthsAgree(j.jy, j.jm);
  }

  lemma FromThree(a: string, b: string, c: string)
    ensures FromParts([a, b, c])
         == if AllDigits(a) && AllDigits(b) && AllDigits(c)
            then Parts(GregorianDate(Value(a), Value(b), Value(c))) else NotNumbers
  {
    var parts := [a, b, c];
    assert parts[0] == a && parts[1] == b && parts[2] == c;
  }

  lemma ReadAs(value: string, g: GregorianDate)
    requires value != "" && ReadParts(value) == Parts(g)
    ensures Parse(value) == Chosen(ToJalali(g))
  {
  }

  /** Three parts select the date they name when all are numbers, and nothing otherwise. */
  lemma ThreeParts(a: string, b: string, c: string, g: GregorianDate)
    requires '-' !in a && '-' !in b && '-' !in c
    requires AllDigits(a) && AllDigits(b) && AllDigits(c) ==> g == GregorianDate(Value(a), Value(b), Value(c))
    ensures Parse(a + "-" + b + "-" + c)
         == if AllDigits(a) && AllDigits(b) && AllDigits(c) then Chosen(ToJalali(g)) else Nothing
  {
    SplitThree(a, b, c);
    FromThree(a, b, c);
    if AllDigits(a) && AllDigits(b) && AllDigits(c) {
      ReadAs(a + "-" + b + "-" + c, g);
    }
  }

  /** Fewer parts select nothing when one is not a number, or there is nothing at all, and otherwise
      a date that is none. */
  lemma FewerParts(a: string, b: string)
    requires '-' !in a && '-' !in b
    ensures Parse(a) == if AllDigits(a) && a != "" then Broken else Nothing
    ensures Parse(a + "-" + b) == if AllDigits(a) && AllDigits(b) then Broken else Nothing
  {
    SplitLast(a, '-');
    SplitLast(b, '-');
    assert a + "-" + b == a + ['-'] + b;
    SplitAt(a, b, '-');
    assert Split(a, '-')[0] == a && Split(a + "-" + b, '-')[0] == a && Split(a + "-" + b, '-')[1] == b;
  }
}
