/** The break table of the Jalali calendar and the walk over it (`jalCal`).

    A segment is a run of years between two breaks. `jalCal` counts leap years up to a year with
    one formula and tells where the year stands in its leap cycle with another; the lemmas show
    that the two agree, for every table whose segments have the two lengths the formulas fit. */
module JalaliTable {
  import opened Truncation

  type Table = breaks: seq<int> | |breaks| >= 2 witness [0, 29]

  datatype Cal = Cal(leap: int, gy: int, march: int)

  /** How the leap field goes on from one year to the next: one more, or a leap year at last. */
  predicate Follows(a: int, b: int) {
    b == a + 1 || (b == 0 && a >= 3)
  }

  // ----- The formulas inside a segment of `jump` years, after `n` of them

  /** Leap years in the whole segment. */
  function LeapsIn(jump: int): int {
    Div(jump, 33) * 8 + Div(Mod(jump, 33), 4)
  }

  function LeapsWithin(jump: int, n: int): int {
    Div(n, 33) * 8 + Div(Mod(n, 33) + 3, 4) + (if Mod(jump, 33) == 4 && jump - n == 4 then 1 else 0)
  }

  /** The year's place in the 33-year cycles; the last five years are moved to the end of one. */
  function CycleYear(jump: int, n: int): int {
    if jump - n < 6 then n - jump + Div(jump + 4, 33) * 33 else n
  }

  function LeapAt(cycleYear: int): int {
    var leap := Mod(Mod(cycleYear + 1, 33) - 1, 4);
    if leap == -1 then 4 else leap
  }

  function LeapField(jump: int, n: int): int {
    LeapAt(CycleYear(jump, n))
  }

  /** Gregorian leap years, on the scale of `leapJ`. */
  function LeapG(gy: int): int {
    Div(gy, 4) - Div((Div(gy, 100) + 1) * 3, 4) - 150
  }

  // ----- Where a year falls in a table

  /** The last break, from the `i`-th on, that is not after `jy`; the `i`-th when all are. */
  function Segment(breaks: Table, jy: int, i: nat := 0): (k: nat)
    requires i < |breaks|
    ensures i <= k < |breaks|
    ensures forall b :: i < b <= k ==> breaks[b] <= jy
    ensures k + 1 < |breaks| ==> jy < breaks[k + 1]
    decreases |breaks| - i
  {
    if i + 1 < |breaks| && breaks[i + 1] <= jy then Segment(breaks, jy, i + 1) else i
  }

  /** Length of segment `k`; past the last break the walk is left with the last length it read. */
  function Jump(breaks: Table, k: nat): int
    requires k < |breaks|
  {
    if k + 1 < |breaks| then breaks[k + 1] - breaks[k] else breaks[k] - breaks[k - 1]
  }

  function LeapsBefore(breaks: Table, k: nat): int
    requires k < |breaks|
  {
    if k == 0 then -14 else LeapsBefore(breaks, k - 1) + LeapsIn(Jump(breaks, k - 1))
  }

  function LeapJ(breaks: Table, jy: int): int {
    var k := Segment(breaks, jy);
    LeapsBefore(breaks, k) + LeapsWithin(Jump(breaks, k), jy - breaks[k])
  }

  function Leap(breaks: Table, jy: int): int {
    var k := Segment(breaks, jy);
    LeapField(Jump(breaks, k), jy - breaks[k])
  }

  function CalOf(breaks: Table, jy: int): Cal {
    Cal(Leap(breaks, jy), jy + 621, 20 + LeapJ(breaks, jy) - LeapG(jy + 621))
  }

  // ----- The program's own pass over the table

  method WalkTable(breaks: Table, jy: int) returns (jp: int, jump: int, leapJ: int)
    ensures var k := Segment(breaks, jy);
            jp == breaks[k] && jump == Jump(breaks, k) && leapJ == LeapsBefore(breaks, k)
  {
    leapJ := -14;
    jp := breaks[0];
    jump := 0;
    var i := 1;
    while i < |breaks|
      invariant 1 <= i <= |breaks|
      invariant jp == breaks[i - 1] && leapJ == LeapsBefore(breaks, i - 1)
      invariant Segment(breaks, jy) == Segment(breaks, jy, i - 1)
      invariant i == |breaks| ==> jump == Jump(breaks, i - 1)
    {
      var jm := breaks[i];
      jump := jm - jp;
      if jy < jm {
        break;
      }
      leapJ := leapJ + Div(jump, 33) * 8 + Div(Mod(jump, 33), 4);
      jp := jm;
      i := i + 1;
    }
  }

  /** The place in the leap cycle: `n` is moved to the end of a cycle first, then `leap` mended. */
  method CycleLeap(jump: int, offset: int) returns (leap: int)
    ensures leap == LeapField(jump, offset)
  {
    var n := offset;
    if jump - n < 6 {
      n := n - jump + Div(jump + 4, 33) * 33;
    }
    assert n == CycleYear(jump, offset);
    leap := Mod(Mod(n + 1, 33) - 1, 4);
    if leap == -1 {
      leap := 4;
    }
  }

  /** `leapJ` from the start of the segment to the year. */
  method CountLeaps(jump: int, n: int, before: int) returns (leapJ: int)
    ensures leapJ == before + LeapsWithin(jump, n)
  {
    leapJ := before + Div(n, 33) * 8 + Div(Mod(n, 33) + 3, 4);
    if Mod(jump, 33) == 4 && jump - n == 4 {
      leapJ := leapJ + 1;
    }
  }

  /** `jalCal`, the parts above in the program's order. */
  method ComputeJalCal(breaks: Table, jy: int) returns (r: Cal)
    ensures r == CalOf(breaks, jy)
  {
    var gy := jy + 621;
    var jp, jump, leapJ := WalkTable(breaks, jy);
    var n := jy - jp;
    leapJ := CountLeaps(jump, n, leapJ);
    var leapG := Div(gy, 4) - Div((Div(gy, 100) + 1) * 3, 4) - 150;
    var march := 20 + leapJ - leapG;
    var leap := CycleLeap(jump, n);
    r := Cal(leap, gy, march);
  }

  // ----- One step inside a segment

  /** The segment lengths the two formulas agree on. */
  predicate Regular(jump: int) {
    jump >= 29 && jump % 33 in {4, 29}
  }

  predicate RegularTable(breaks: Table) {
    forall k :: 0 <= k < |breaks| - 1 ==> Regular(breaks[k + 1] - breaks[k])
  }

  /** From the first break up to, not including, the last. */
  predicate Within(breaks: Table, jy: int) {
    breaks[0] <= jy < breaks[|breaks| - 1]
  }

  lemma LeapInCycle(q: nat, t: nat)
    requires t < 33
    ensures LeapAt(33 * q + t) == if t == 32 then 4 else t % 4
  {
    assert (33 * q + t + 1) % 33 == if t == 32 then 0 else t + 1;
  }

  /** The leap field without the rewriting of `n`: the last five years of a segment count up
      to its end, every other year counts within its 33-year cycle. */
  function Counted(jump: int, n: int): int {
    if jump - n < 6 then 5 - (jump - n) else if n % 33 == 32 then 4 else n % 33 % 4
  }

  lemma LeapFieldCounts(jump: int, n: int)
    requires Regular(jump) && 0 <= n < jump
    ensures LeapField(jump, n) == Counted(jump, n)
  {
    if jump - n < 6 {
      var q := jump / 33 - (if jump % 33 == 4 then 1 else 0);
      assert CycleYear(jump, n) == 33 * q + (33 - (jump - n));
      LeapInCycle(q, 33 - (jump - n));
    } else {
      LeapInCycle(n / 33, n % 33);
    }
  }

  lemma NextInCycle(n: nat)
    ensures (n + 1) % 33 == if n % 33 == 32 then 0 else n % 33 + 1
    ensures (n + 1) / 33 == n / 33 + (if n % 33 == 32 then 1 else 0)
  {
  }

  /** Years since a leap year, at a place in the 33-year cycle. */
  function InCycle(t: int): int {
    if t == 32 then 4 else t % 4
  }

  lemma CycleStep(t: nat)
    requires t < 33
    ensures Follows(InCycle(t), InCycle(if t == 32 then 0 else t + 1))
  {
  }

  lemma CountedStep(jump: int, n: int)
    requires Regular(jump) && 0 <= n < jump - 1
    ensures Follows(Counted(jump, n), Counted(jump, n + 1))
  {
    if jump - n == 6 {
      assert (jump - 6) % 33 in {23, 31};
    } else if jump - n > 6 {
      NextInCycle(n);
      CycleStep(n % 33);
      assert Counted(jump, n) == InCycle(n % 33) && Counted(jump, n + 1) == InCycle((n + 1) % 33);
    }
  }

  lemma LeapsStepInCycles(jump: int, n: int)
    requires Regular(jump) && 0 <= n && jump - n >= 6
    ensures LeapsWithin(jump, n + 1) == LeapsWithin(jump, n) + (if Counted(jump, n) == 0 then 1 else 0)
  {
    NextInCycle(n);
    var t := n % 33;
    if t < 32 {
      assert (t + 4) / 4 == (t + 3) / 4 + (if t % 4 == 0 then 1 else 0);
    }
  }

  /** The last five years count up to the end of the segment; in a segment four years longer than its
      cycles, the leap day of its fifth-last year is the one added by hand. */
  lemma LeapsStepLastFive(jump: int, n: int)
    requires Regular(jump) && 1 <= jump - n <= 5
    ensures (if n + 1 < jump then LeapsWithin(jump, n + 1) else LeapsIn(jump))
         == LeapsWithin(jump, n) + (if Counted(jump, n) == 0 then 1 else 0)
  {
    var q, r := jump / 33, jump % 33;
    var t := r - (jump - n);
    if t >= 0 {
      Quotient(n, 33, q, t);
      NextInCycle(n);
    } else {
      Quotient(n, 33, q - 1, t + 33);
      NextInCycle(n);
    }
  }

  lemma LeapsStep(jump: int, n: int)
    requires Regular(jump) && 0 <= n < jump
    ensures (if n + 1 < jump then LeapsWithin(jump, n + 1) else LeapsIn(jump))
         == LeapsWithin(jump, n) + (if Counted(jump, n) == 0 then 1 else 0)
  {
    if jump - n >= 6 {
      LeapsStepInCycles(jump, n);
    } else {
      LeapsStepLastFive(jump, n);
    }
  }

  /** One step from a year of a segment to the next, the one after its last year being the segment's
      end: how many leap years were counted, and the leap field. */
  lemma StepInSegment(jump: int, n: int)
    requires Regular(jump) && 0 <= n < jump
    ensures (if n + 1 < jump then LeapsWithin(jump, n + 1) else LeapsIn(jump))
         == LeapsWithin(jump, n) + (if LeapField(jump, n) == 0 then 1 else 0)
    ensures 0 <= LeapField(jump, n) <= 4
    ensures Follows(LeapField(jump, n), if n + 1 < jump then LeapField(jump, n + 1) else 0)
  {
    LeapFieldCounts(jump, n);
    LeapsStep(jump, n);
    if n + 1 < jump {
      LeapFieldCounts(jump, n + 1);
      CountedStep(jump, n);
    }
  }

  // ----- One step across the table

  lemma SegmentOfNext(breaks: Table, jy: int)
    requires RegularTable(breaks) && Within(breaks, jy)
    ensures var k := Segment(breaks, jy);
            && k + 1 < |breaks| && breaks[k] <= jy
            && Segment(breaks, jy + 1) == if jy + 1 == breaks[k + 1] then k + 1 else k
  {
    var k, l := Segment(breaks, jy), Segment(breaks, jy + 1);
    assert k + 2 < |breaks| ==> Regular(breaks[k + 2] - breaks[k + 1]);
  }

  /** A break year is a leap year with nothing counted in its segment yet. */
  lemma NewSegment(breaks: Table, k: nat)
    requires RegularTable(breaks) && k < |breaks|
    ensures LeapField(Jump(breaks, k), 0) == 0
    ensures LeapsWithin(Jump(breaks, k), 0) == 0
  {
    var i := if k + 1 < |breaks| then k else k - 1;
    assert Regular(breaks[i + 1] - breaks[i]);
    LeapFieldCounts(Jump(breaks, k), 0);
  }

  /** `leapJ` grows exactly over the years whose leap field is zero, and the leap field counts the
      years since the last of them, inside segments and across breaks alike. */
  lemma TableStep(breaks: Table, jy: int)
    requires RegularTable(breaks) && Within(breaks, jy)
    ensures LeapJ(breaks, jy + 1) == LeapJ(breaks, jy) + (if Leap(breaks, jy) == 0 then 1 else 0)
    ensures 0 <= Leap(breaks, jy) <= 4
    ensures Follows(Leap(breaks, jy), Leap(breaks, jy + 1))
  {
    var k := Segment(breaks, jy);
    SegmentOfNext(breaks, jy);
    var jump, n := Jump(breaks, k), jy - breaks[k];
    assert Regular(breaks[k + 1] - breaks[k]);
    StepInSegment(jump, n);
    if n + 1 == jump {
      NewSegment(breaks, k + 1);
    }
  }

  // ----- March 20 to 22

  ghost predicate InMarchWindow(s: int, jump: int, count: int, jy: int) {
    0 <= count + LeapsWithin(jump, jy - s) - LeapG(jy + 621) <= 2
  }

  /** New year stays on March 20, 21 or 22 through a segment that starts at break `s` with
      `count` leap years before it. */
  ghost predicate Windowed(s: int, jump: int, count: int) {
    forall jy :: s <= jy < s + jump ==> InMarchWindow(s, jump, count, jy)
  }

  /** A list of the leap years counted up to each break. */
  predicate CountsOf(breaks: Table, counts: seq<int>) {
    && |counts| == |breaks|
    && counts[0] == -14
    && forall k :: 0 <= k < |breaks| - 1 ==> counts[k + 1] - counts[k] == LeapsIn(breaks[k + 1] - breaks[k])
  }

  lemma {:induction false} CountedAtBreak(breaks: Table, counts: seq<int>, k: nat)
    requires CountsOf(breaks, counts) && k < |breaks|
    ensures LeapsBefore(breaks, k) == counts[k]
  {
    if k > 0 {
      CountedAtBreak(breaks, counts, k - 1);
      assert counts[k - 1 + 1] - counts[k - 1] == LeapsIn(breaks[k - 1 + 1] - breaks[k - 1]);
    }
  }

  /** How far segment `k` reaches; after the last break only the break year itself is meant. */
  function Reach(breaks: Table, k: nat): int
    requires k < |breaks|
  {
    if k + 1 < |breaks| then breaks[k + 1] - breaks[k] else 1
  }

  lemma {:induction false} BreaksIncrease(breaks: Table, a: nat, b: nat)
    requires RegularTable(breaks) && a <= b < |breaks|
    ensures breaks[a] <= breaks[b]
  {
    if a < b {
      assert Regular(breaks[b - 1 + 1] - breaks[b - 1]);
      BreaksIncrease(breaks, a, b - 1);
    }
  }

  lemma SegmentFound(breaks: Table, jy: int, k: nat)
    requires RegularTable(breaks) && k < |breaks|
    requires breaks[k] <= jy && (k + 1 < |breaks| ==> jy < breaks[k + 1])
    ensures Segment(breaks, jy) == k
  {
    var l := Segment(breaks, jy);
    if l < k {
      BreaksIncrease(breaks, l + 1, k);
    }
  }

  lemma MarchInSegment(breaks: Table, count: int, jy: int)
    requires var k := Segment(breaks, jy);
             && LeapsBefore(breaks, k) == count
             && (breaks[k] == jy || Reach(breaks, k) == Jump(breaks, k))
             && breaks[k] <= jy < breaks[k] + Reach(breaks, k)
             && Regular(Jump(breaks, k))
             && Windowed(breaks[k], Reach(breaks, k), count)
    ensures 20 <= CalOf(breaks, jy).march <= 22
  {
    var k := Segment(breaks, jy);
    if breaks[k] == jy {
      assert LeapsWithin(Jump(breaks, k), 0) == 0;
    }
    assert InMarchWindow(breaks[k], Reach(breaks, k), count, jy);
  }

  /** Where a year falls, from the first break to the last. */
  lemma Placed(breaks: Table, jy: int)
    requires RegularTable(breaks)
    requires Within(breaks, jy) || jy == breaks[|breaks| - 1]
    ensures var k := Segment(breaks, jy);
            && (breaks[k] == jy || Reach(breaks, k) == Jump(breaks, k))
            && breaks[k] <= jy < breaks[k] + Reach(breaks, k)
            && Regular(Jump(breaks, k))
  {
    var k := Segment(breaks, jy);
    if Within(breaks, jy) {
      SegmentOfNext(breaks, jy);
      assert Regular(breaks[k + 1] - breaks[k]);
    } else {
      SegmentFound(breaks, jy, |breaks| - 1);
      assert Regular(breaks[k - 1 + 1] - breaks[k - 1]);
    }
  }

  /** A break year counts the leap years up to it and none of its own segment. */
  lemma CountAtBreakYear(breaks: Table, counts: seq<int>, k: nat)
    requires RegularTable(breaks) && CountsOf(breaks, counts) && k < |breaks|
    ensures LeapJ(breaks, breaks[k]) == counts[k] && Leap(breaks, breaks[k]) == 0
  {
    assert k + 1 < |breaks| ==> Regular(breaks[k + 1] - breaks[k]);
    SegmentFound(breaks, breaks[k], k);
    CountedAtBreak(breaks, counts, k);
    NewSegment(breaks, k);
  }

  /** The count for a year whose segment is known. */
  lemma CountedInSegment(breaks: Table, counts: seq<int>, jy: int, k: nat)
    requires RegularTable(breaks) && CountsOf(breaks, counts) && k + 1 < |breaks|
    requires breaks[k] <= jy < breaks[k + 1]
    ensures LeapJ(breaks, jy) == counts[k] + LeapsWithin(breaks[k + 1] - breaks[k], jy - breaks[k])
  {
    SegmentFound(breaks, jy, k);
    CountedAtBreak(breaks, counts, k);
  }

  /** Before the first break the formulas go on dividing, now with negative years. */
  lemma BeforeTheFirstBreak(breaks: Table)
    requires breaks[0] == -61 && breaks[1] == 9
    ensures LeapJ(breaks, -65) == LeapJ(breaks, -64) && Leap(breaks, -65) == 0
  {
    assert Segment(breaks, -65) == 0 && Segment(breaks, -64) == 0 && Jump(breaks, 0) == 70;
    assert LeapsWithin(70, -4) == 0 && LeapsWithin(70, -3) == 0 && LeapField(70, -4) == 0;
  }

  /** Years of the segment from 1210 to 1635. */
  lemma NowadaysIn(breaks: Table, counts: seq<int>, jy: int)
    requires RegularTable(breaks) && CountsOf(breaks, counts) && |breaks| > 11
    requires breaks[10] == 1210 && breaks[11] == 1635 && counts[10] == 294
    requires 1210 <= jy < 1635
    ensures LeapJ(breaks, jy) == 294 + LeapsWithin(425, jy - 1210)
  {
    CountedInSegment(breaks, counts, jy, 10);
  }

  lemma NowadaysCounts()
    ensures LeapsWithin(425, 71) == 18 && LeapsWithin(425, 147) == 36 && LeapsWithin(425, 193) == 47
  {
  }

  lemma MarchOf(breaks: Table, jy: int, leapJ: int, leapG: int)
    requires LeapJ(breaks, jy) == leapJ && LeapG(jy + 621) == leapG
    ensures CalOf(breaks, jy).march == 20 + leapJ - leapG
  {
  }

  lemma GregorianCounts()
    ensures LeapG(1902) == 310 && LeapG(1978) == 329 && LeapG(2024) == 341
  {
  }
}
