/** Grouping slots by calendar day (`groupSlotsByDay`).

    `dayOf` gives the day key of an instant and `leq` compares strings, as `zonedIsoDate` and
    `localeCompare` do. */
module SlotGroups {
  import opened Sorting
  import opened Grouping

  datatype Slot = Slot(id: string, startAt: string)

  datatype Group = Group(dayKey: string, date: string, slots: seq<Slot>)

  type Comparison = (string, string) -> bool

  function DayOf(dayOf: string -> string): Slot -> string {
    (s: Slot) => dayOf(s.startAt)
  }

  function ByStart(leq: Comparison): (Slot, Slot) -> bool {
    (a: Slot, b: Slot) => leq(a.startAt, b.startAt)
  }

  function GroupOf(slots: seq<Slot>, day: Slot -> string, leq: Comparison, k: string): Group
    requires k in Keys(slots, day)
  {
    KeyIsMet(slots, day, k);
    Group(k, Arrived(slots, day, k)[0].startAt, Part(slots, day, ByStart(leq), k))
  }

  function GroupsOf(slots: seq<Slot>, day: Slot -> string, leq: Comparison, ks: seq<string>): seq<Group>
    requires forall k :: k in ks ==> k in Keys(slots, day)
  {
    if ks == [] then []
    else [GroupOf(slots, day, leq, ks[0])] + GroupsOf(slots, day, leq, ks[1..])
  }

  /** The days in order. */
  function SortedDays(slots: seq<Slot>, day: Slot -> string, leq: Comparison): (ks: seq<string>)
    ensures forall k :: k in ks <==> k in Keys(slots, day)
  {
    SortMembers(Keys(slots, day), leq);
    Sort(Keys(slots, day), leq)
  }

  /** What `groupSlotsByDay` returns. */
  function Groups(slots: seq<Slot>, dayOf: string -> string, leq: Comparison): seq<Group> {
    GroupsOf(slots, DayOf(dayOf), leq, SortedDays(slots, DayOf(dayOf), leq))
  }

  // ----- The function

  /** What the map holds of a day: the start of the first slot, and the slots as they arrived. */
  datatype Bucket = Bucket(date: string, slots: seq<Slot>)

  ghost predicate Holds(bucket: Bucket, slots: seq<Slot>, day: Slot -> string, k: string) {
    bucket.slots == Arrived(slots, day, k) && bucket.slots != [] && bucket.date == bucket.slots[0].startAt
  }

  /** A map filled with the slots, its keys set in the order `order`. */
  ghost predicate Filled(order: seq<string>, buckets: map<string, Bucket>, slots: seq<Slot>, day: Slot -> string) {
    && order == Keys(slots, day)
    && (forall k :: k in buckets <==> k in order)
    && (forall k :: k in buckets ==> Holds(buckets[k], slots, day, k))
  }

  lemma OneMore(order: seq<string>, buckets: map<string, Bucket>, slots: seq<Slot>, slot: Slot, day: Slot -> string)
    requires Filled(order, buckets, slots, day)
    ensures var k := day(slot);
            if k in buckets
            then Filled(order, buckets[k := buckets[k].(slots := buckets[k].slots + [slot])], slots + [slot], day)
            else Filled(order + [k], buckets[k := Bucket(slot.startAt, [slot])], slots + [slot], day)
  {
    KeysOfOneMore(slots, slot, day);
    KeyIsMet(slots, day, day(slot));
    forall k
      ensures Arrived(slots + [slot], day, k)
           == if day(slot) == k then Arrived(slots, day, k) + [slot] else Arrived(slots, day, k)
    {
      ArrivedOfOneMore(slots, slot, day, k);
    }
  }

  /** The loop that fills the map. */
  method FillBuckets(slots: seq<Slot>, day: Slot -> string) returns (order: seq<string>, buckets: map<string, Bucket>)
    ensures Filled(order, buckets, slots, day)
  {
    order, buckets := [], map[];
    for i := 0 to |slots|
      invariant Filled(order, buckets, slots[..i], day)
    {
      var slot := slots[i];
      var dayKey := day(slot);
      OneMore(order, buckets, slots[..i], slot, day);
      assert slots[..i + 1] == slots[..i] + [slot];
      if dayKey in buckets {
        buckets := buckets[dayKey := buckets[dayKey].(slots := buckets[dayKey].slots + [slot])];
      } else {
        buckets := buckets[dayKey := Bucket(slot.startAt, [slot])];
        order := order + [dayKey];
      }
    }
    assert slots[..|slots|] == slots;
  }

  lemma {:induction false} GroupsOfOneMore(
    slots: seq<Slot>, day: Slot -> string, leq: Comparison, ks: seq<string>, k: string)
    requires forall j :: j in ks + [k] ==> j in Keys(slots, day)
    ensures GroupsOf(slots, day, leq, ks + [k]) == GroupsOf(slots, day, leq, ks) + [GroupOf(slots, day, leq, k)]
  {
    assert k in ks + [k] && forall j :: j in ks ==> j in ks + [k];
    if ks != [] {
      assert forall j :: j in ks[1..] + [k] ==> j in ks + [k];
      GroupsOfOneMore(slots, day, leq, ks[1..], k);
      assert (ks + [k])[1..] == ks[1..] + [k];
    }
  }

  /** `groupSlotsByDay`. */
  method GroupSlotsByDay(slots: seq<Slot>, dayOf: string -> string, leq: Comparison) returns (groups: seq<Group>)
    ensures groups == Groups(slots, dayOf, leq)
  {
    var order, buckets := FillBuckets(slots, DayOf(dayOf));
    SortMembers(order, leq);
    var days := Sort(order, leq);
    groups := [];
    for i := 0 to |days|
      invariant groups == GroupsOf(slots, DayOf(dayOf), leq, days[..i])
    {
      var k := days[i];
      assert k in days;
      groups := groups + [Group(k, buckets[k].date, Sort(buckets[k].slots, ByStart(leq)))];
      assert days[..i + 1] == days[..i] + [k];
      GroupsOfOneMore(slots, DayOf(dayOf), leq, days[..i], k);
    }
    assert days[..|days|] == days;
  }

  // ----- A sorted partition

  /** The groups one after the other, as the panel lays them out. */
  function Flatten(groups: seq<Group>): seq<Slot> {
    if groups == [] then [] else groups[0].slots + Flatten(groups[1..])
  }

  lemma {:induction false} GroupsAreParts(slots: seq<Slot>, day: Slot -> string, leq: Comparison, ks: seq<string>)
    requires forall k :: k in ks ==> k in Keys(slots, day)
    ensures var groups := GroupsOf(slots, day, leq, ks);
            && Flatten(groups) == Parts(slots, day, ByStart(leq), ks)
            && |groups| == |ks| && forall i :: 0 <= i < |ks| ==> groups[i] == GroupOf(slots, day, leq, ks[i])
  {
    if ks != [] {
      GroupsAreParts(slots, day, leq, ks[1..]);
    }
  }

  lemma StartsCompare(leq: Comparison)
    requires TotalPreorder(leq)
    ensures TotalPreorder(ByStart(leq))
  {
    var byStart := ByStart(leq);
    forall a, b
      ensures byStart(a, b) || byStart(b, a)
    {
      assert leq(a.startAt, b.startAt) || leq(b.startAt, a.startAt);
    }
    forall a, b, c | byStart(a, b) && byStart(b, c)
      ensures byStart(a, c)
    {
      assert leq(a.startAt, b.startAt) && leq(b.startAt, c.startAt);
    }
  }

  ghost predicate ByStarts(slots: seq<Slot>, leq: Comparison) {
    forall i, j :: 0 <= i < j < |slots| ==> leq(slots[i].startAt, slots[j].startAt)
  }

  lemma OrderedByStart(slots: seq<Slot>, leq: Comparison)
    ensures Ordered(slots, ByStart(leq)) <==> ByStarts(slots, leq)
  {
    forall i, j | 0 <= i < j < |slots|
      ensures ByStart(leq)(slots[i], slots[j]) <==> leq(slots[i].startAt, slots[j].startAt)
    {
    }
  }

  /** A group holds the slots of its day, all of them, by start; its date is its first arrival's. */
  ghost predicate Sound(g: Group, slots: seq<Slot>, dayOf: string -> string, leq: Comparison) {
    && g.slots != [] && ByStarts(g.slots, leq)
    && (forall s :: s in g.slots <==> s in slots && dayOf(s.startAt) == g.dayKey)
    && (exists i :: 0 <= i < |slots| && dayOf(slots[i].startAt) == g.dayKey && g.date == slots[i].startAt
                    && forall j :: 0 <= j < i ==> dayOf(slots[j].startAt) != g.dayKey)
  }

  lemma {:induction false} FirstArrival(slots: seq<Slot>, day: Slot -> string, k: string)
    requires Arrived(slots, day, k) != []
    ensures exists i :: 0 <= i < |slots| && day(slots[i]) == k && slots[i] == Arrived(slots, day, k)[0]
                        && forall j :: 0 <= j < i ==> day(slots[j]) != k
  {
    if day(slots[0]) != k {
      FirstArrival(slots[1..], day, k);
      var i :| 0 <= i < |slots[1..]| && day(slots[1..][i]) == k && slots[1..][i] == Arrived(slots[1..], day, k)[0]
               && forall j :: 0 <= j < i ==> day(slots[1..][j]) != k;
      assert slots[i + 1] == slots[1..][i];
      assert forall j :: 1 <= j < i + 1 ==> slots[j] == slots[1..][j - 1];
    }
  }

  lemma GroupIsSound(slots: seq<Slot>, dayOf: string -> string, leq: Comparison, k: string)
    requires TotalPreorder(leq) && k in Keys(slots, DayOf(dayOf))
    ensures Sound(GroupOf(slots, DayOf(dayOf), leq, k), slots, dayOf, leq)
  {
    var day := DayOf(dayOf);
    StartsCompare(leq);
    SortOrdered(Arrived(slots, day, k), ByStart(leq));
    KeyIsMet(slots, day, k);
    FirstArrival(slots, day, k);
    var g := GroupOf(slots, day, leq, k);
    OrderedByStart(g.slots, leq);
    forall s
      ensures s in g.slots <==> s in slots && dayOf(s.startAt) == k
    {
      PartMembers(slots, day, ByStart(leq), k, s);
    }
    SortMembers(Arrived(slots, day, k), ByStart(leq));
    assert Arrived(slots, day, k)[0] in g.slots;
    assert forall s: Slot :: day(s) == dayOf(s.startAt);
  }

  lemma DaysSorted(slots: seq<Slot>, day: Slot -> string, leq: Comparison)
    requires TotalPreorder(leq)
    ensures Ordered(SortedDays(slots, day, leq), leq) && Distinct(SortedDays(slots, day, leq))
    ensures forall s :: s in slots ==> day(s) in SortedDays(slots, day, leq)
  {
    SortOrdered(Keys(slots, day), leq);
    KeysDistinct(slots, day);
    SortKeepsDistinct(Keys(slots, day), leq);
    forall s | s in slots
      ensures day(s) in SortedDays(slots, day, leq)
    {
      KeyOfElement(slots, day, s);
    }
  }

  /** The groups are a partition of the slots: days strictly ascend, every slot is in the group of its
      own day and ordered by its start, no group is empty, and nothing is lost or doubled. */
  lemma SortedPartition(slots: seq<Slot>, dayOf: string -> string, leq: Comparison)
    requires TotalPreorder(leq)
    ensures var groups := Groups(slots, dayOf, leq);
            && (forall i, j :: 0 <= i < j < |groups| ==>
                  leq(groups[i].dayKey, groups[j].dayKey) && groups[i].dayKey != groups[j].dayKey)
            && (forall i :: 0 <= i < |groups| ==> Sound(groups[i], slots, dayOf, leq))
            && multiset(Flatten(groups)) == multiset(slots)
  {
    var day := DayOf(dayOf);
    var days := SortedDays(slots, day, leq);
    DaysSorted(slots, day, leq);
    GroupsAreParts(slots, day, leq, days);
    PartsPermute(slots, day, ByStart(leq), days);
    forall i | 0 <= i < |days|
      ensures Sound(GroupOf(slots, day, leq, days[i]), slots, dayOf, leq)
    {
      assert days[i] in days;
      GroupIsSound(slots, dayOf, leq, days[i]);
    }
  }

  // ----- The whole panel in order

  /** A later start never has an earlier day. */
  ghost predicate DaysFollowStarts(slots: seq<Slot>, dayOf: string -> string, leq: Comparison) {
    forall a, b :: a in slots && b in slots && leq(a.startAt, b.startAt) ==> leq(dayOf(a.startAt), dayOf(b.startAt))
  }

  lemma FollowIsKeysFollow(slots: seq<Slot>, dayOf: string -> string, leq: Comparison)
    ensures DaysFollowStarts(slots, dayOf, leq) <==> KeysFollow(slots, DayOf(dayOf), ByStart(leq), leq)
  {
    assert forall a: Slot, b: Slot :: ByStart(leq)(a, b) <==> leq(a.startAt, b.startAt);
    assert forall a: Slot :: DayOf(dayOf)(a) == dayOf(a.startAt);
  }

  function StartsAt(t: string): Slot -> bool {
    (s: Slot) => s.startAt == t
  }

  /** The slots by start, and those of the same start in the order in which they came. */
  ghost predicate InTime(panel: seq<Slot>, slots: seq<Slot>, leq: Comparison) {
    ByStarts(panel, leq) && forall t :: Filter(panel, StartsAt(t)) == Filter(slots, StartsAt(t))
  }

  lemma LikeIsSameStart(s: seq<Slot>, leq: Comparison, z: Slot)
    requires TotalOrder(leq)
    ensures Filter(s, Like(z, ByStart(leq))) == Filter(s, StartsAt(z.startAt))
  {
    forall x
      ensures Like(z, ByStart(leq))(x) == StartsAt(z.startAt)(x)
    {
      assert leq(z.startAt, z.startAt);
    }
    FilterAlike(s, Like(z, ByStart(leq)), StartsAt(z.startAt));
  }

  lemma SortedInTime(slots: seq<Slot>, leq: Comparison)
    requires TotalOrder(leq) && TotalPreorder(ByStart(leq))
    ensures InTime(Sort(slots, ByStart(leq)), slots, leq)
  {
    var sorted := Sort(slots, ByStart(leq));
    SortOrdered(slots, ByStart(leq));
    OrderedByStart(sorted, leq);
    forall t
      ensures Filter(sorted, StartsAt(t)) == Filter(slots, StartsAt(t))
    {
      var z := Slot("", t);
      LikeIsSameStart(sorted, leq, z);
      LikeIsSameStart(slots, leq, z);
      SortStable(slots, ByStart(leq), z);
    }
  }

  /** Sorting is the one way to put slots in time. */
  lemma InTimeIsSorted(panel: seq<Slot>, slots: seq<Slot>, leq: Comparison)
    requires TotalOrder(leq)
    ensures InTime(panel, slots, leq) <==> panel == Sort(slots, ByStart(leq))
  {
    StartsCompare(leq);
    SortedInTime(slots, leq);
    if InTime(panel, slots, leq) {
      var sorted := Sort(slots, ByStart(leq));
      OrderedByStart(panel, leq);
      OrderedByStart(sorted, leq);
      forall z
        ensures Filter(panel, Like(z, ByStart(leq))) == Filter(sorted, Like(z, ByStart(leq)))
      {
        LikeIsSameStart(panel, leq, z);
        LikeIsSameStart(sorted, leq, z);
      }
      StableUnique(panel, sorted, ByStart(leq));
    }
  }

  lemma LikeStartsLikeDays(dayOf: string -> string, leq: Comparison)
    requires TotalOrder(leq)
    ensures AlikeInKey(DayOf(dayOf), ByStart(leq))
  {
    forall a: Slot, b: Slot | ByStart(leq)(a, b) && ByStart(leq)(b, a)
      ensures dayOf(a.startAt) == dayOf(b.startAt)
    {
      assert leq(a.startAt, b.startAt) && leq(b.startAt, a.startAt);
    }
  }

  /** The panel read group by group is in time, slots of equal start in the order in which they came,
      exactly when no later start has an earlier day. */
  lemma PanelIsChronological(slots: seq<Slot>, dayOf: string -> string, leq: Comparison)
    requires TotalOrder(leq)
    ensures InTime(Flatten(Groups(slots, dayOf, leq)), slots, leq) <==> DaysFollowStarts(slots, dayOf, leq)
  {
    var day, days := DayOf(dayOf), SortedDays(slots, DayOf(dayOf), leq);
    StartsCompare(leq);
    DaysSorted(slots, day, leq);
    GroupsAreParts(slots, day, leq, days);
    LikeStartsLikeDays(dayOf, leq);
    SortedExactlyWhenKeysFollow(slots, day, ByStart(leq), leq, days);
    InTimeIsSorted(Flatten(Groups(slots, dayOf, leq)), slots, leq);
    FollowIsKeysFollow(slots, dayOf, leq);
  }
}
