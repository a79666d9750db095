/** Merging a page of messages into a thread (`mergeMessages`). */
module MessageMerge {

  /** A message as far as merging can tell: its sequence number, and everything else. */
  datatype Message = Message(sequence: int, id: string, body: string)

  type ByNumber = m: map<int, Message> | forall s :: s in m ==> m[s].sequence == s

  /** The messages of a list by sequence number, a later one replacing an earlier one. */
  function BySequence(ms: seq<Message>): ByNumber {
    if ms == [] then map[]
    else
      var last := ms[|ms| - 1];
      BySequence(ms[..|ms| - 1])[last.sequence := last]
  }

  predicate Ascending(ms: seq<Message>) {
    forall i, j :: 0 <= i < j < |ms| ==> ms[i].sequence < ms[j].sequence
  }

  /** `ms` holds exactly the messages of `m`. */
  ghost predicate Holds(ms: seq<Message>, m: ByNumber) {
    forall x :: x in ms <==> x.sequence in m && m[x.sequence] == x
  }

  /** A message put at its place in a thread, over the one that had its number. */
  function Put(x: Message, ms: seq<Message>): (r: seq<Message>)
    requires Ascending(ms)
    ensures Ascending(r)
    ensures forall y :: y in r <==> y == x || (y in ms && y.sequence != x.sequence)
  {
    if ms == [] then [x]
    else if x.sequence < ms[0].sequence then [x] + ms
    else if x.sequence == ms[0].sequence then [x] + ms[1..]
    else
      assert forall y :: y in ms <==> y == ms[0] || y in ms[1..];
      [ms[0]] + Put(x, ms[1..])
  }

  /** The thread a list of messages makes when they arrive one by one. */
  function Thread(ms: seq<Message>): (r: seq<Message>)
    ensures Ascending(r)
  {
    if ms == [] then [] else Put(ms[|ms| - 1], Thread(ms[..|ms| - 1]))
  }

  function Merge(current: seq<Message>, incoming: seq<Message>): seq<Message> {
    Thread(current + incoming)
  }

  lemma {:induction false} ThreadHolds(ms: seq<Message>)
    ensures Holds(Thread(ms), BySequence(ms))
  {
    if ms != [] {
      ThreadHolds(ms[..|ms| - 1]);
    }
  }

  lemma UpdateOfUnion(a: map<int, Message>, b: map<int, Message>, x: Message)
    ensures (a + b)[x.sequence := x] == a + b[x.sequence := x]
  {
  }

  lemma {:induction false} BySequenceOfBoth(a: seq<Message>, b: seq<Message>)
    ensures BySequence(a + b) == BySequence(a) + BySequence(b)
  {
    if b == [] {
      assert a + b == a;
    } else {
      BySequenceOfBoth(a, b[..|b| - 1]);
      assert (a + b)[..|a + b| - 1] == a + b[..|b| - 1];
      UpdateOfUnion(BySequence(a), BySequence(b[..|b| - 1]), b[|b| - 1]);
    }
  }

  /** An ascending list is determined by the messages it holds. */
  lemma {:induction false} Determined(a: seq<Message>, b: seq<Message>)
    requires Ascending(a) && Ascending(b) && forall x :: x in a <==> x in b
    ensures a == b
  {
    assert a != [] ==> a[0] in b;
    assert b != [] ==> b[0] in a;
    if a != [] {
      assert a[0] == b[0];
      forall x
        ensures x in a[1..] <==> x in b[1..]
      {
        assert x in a <==> x == a[0] || x in a[1..];
        assert x in b <==> x == b[0] || x in b[1..];
      }
      Determined(a[1..], b[1..]);
    }
  }

  lemma SameThread(a: seq<Message>, b: seq<Message>, m: ByNumber)
    requires Ascending(a) && Holds(a, m) && Ascending(b) && Holds(b, m)
    ensures a == b
  {
    forall x
      ensures x in a <==> x in b
    {
      assert x in a <==> x.sequence in m && m[x.sequence] == x;
      assert x in b <==> x.sequence in m && m[x.sequence] == x;
    }
    Determined(a, b);
  }

  /** The map holds of every number the last message of the list that has it. */
  lemma {:induction false} LastOfNumber(ms: seq<Message>, s: int)
    ensures s in BySequence(ms) <==> exists i :: 0 <= i < |ms| && ms[i].sequence == s
    ensures s in BySequence(ms) ==>
              exists i :: 0 <= i < |ms| && ms[i].sequence == s && BySequence(ms)[s] == ms[i]
                          && forall j :: i < j < |ms| ==> ms[j].sequence != s
  {
    if ms != [] {
      var before, last := ms[..|ms| - 1], ms[|ms| - 1];
      LastOfNumber(before, s);
      assert forall i :: 0 <= i < |before| ==> before[i] == ms[i];
      if last.sequence == s {
        assert BySequence(ms)[s] == ms[|ms| - 1];
      }
    }
  }

  /** A map filled from a list, entry by entry. */
  method Fill(start: ByNumber, ms: seq<Message>) returns (m: ByNumber)
    ensures m == start + BySequence(ms)
  {
    m := start;
    for i := 0 to |ms|
      invariant m == start + BySequence(ms[..i])
    {
      assert ms[..i + 1][..i] == ms[..i];
      UpdateOfUnion(start, BySequence(ms[..i]), ms[i]);
      m := m[ms[i].sequence := ms[i]];
    }
    assert ms[..|ms|] == ms;
  }

  /** The values of a map, sorted by sequence. */
  method SortedValues(m: ByNumber) returns (ms: seq<Message>)
    ensures Ascending(ms) && Holds(ms, m)
  {
    ms := [];
    var left := m.Keys;
    while left != {}
      invariant left <= m.Keys
      invariant Ascending(ms)
      invariant forall x :: x in ms <==> x.sequence in m && x.sequence !in left && m[x.sequence] == x
      decreases |left|
    {
      var s :| s in left;
      ms := Put(m[s], ms);
      left := left - {s};
    }
  }

  /** `mergeMessages`: a map filled from both lists, its values sorted by sequence. */
  method MergeMessages(current: seq<Message>, incoming: seq<Message>) returns (merged: seq<Message>)
    ensures merged == Merge(current, incoming)
  {
    var bySequence := Fill(map[], current);
    bySequence := Fill(bySequence, incoming);
    merged := SortedValues(bySequence);
    BySequenceOfBoth(current, incoming);
    ThreadHolds(current + incoming);
    SameThread(merged, Merge(current, incoming), bySequence);
  }

  // ----- What merging promises

  /** Sorted, no number twice, everything of both lists, and the incoming message wins. */
  lemma MergeIsUnion(current: seq<Message>, incoming: seq<Message>)
    ensures Ascending(Merge(current, incoming))
    ensures Holds(Merge(current, incoming), BySequence(current) + BySequence(incoming))
  {
    BySequenceOfBoth(current, incoming);
    ThreadHolds(current + incoming);
  }

  lemma {:induction false} FoundInList(ms: seq<Message>, s: int)
    ensures s in BySequence(ms) ==> BySequence(ms)[s] in ms
  {
    if ms != [] && s != ms[|ms| - 1].sequence {
      FoundInList(ms[..|ms| - 1], s);
    }
  }

  lemma {:induction false} KnownByNumber(ms: seq<Message>, x: Message)
    requires Ascending(ms) && x in ms
    ensures x.sequence in BySequence(ms) && BySequence(ms)[x.sequence] == x
  {
    if x != ms[|ms| - 1] {
      assert x in ms[..|ms| - 1];
      KnownByNumber(ms[..|ms| - 1], x);
    }
  }

  /** An ascending thread is its own map's thread. */
  lemma ReadBack(ms: seq<Message>)
    requires Ascending(ms)
    ensures Holds(ms, BySequence(ms))
  {
    forall x
      ensures x in ms <==> x.sequence in BySequence(ms) && BySequence(ms)[x.sequence] == x
    {
      FoundInList(ms, x.sequence);
      if x in ms {
        KnownByNumber(ms, x);
      }
    }
  }

  lemma SameMap(ms: seq<Message>, m: ByNumber, n: ByNumber)
    requires Holds(ms, m) && Holds(ms, n)
    ensures m == n
  {
    forall s | s in m
      ensures s in n && n[s] == m[s]
    {
      assert m[s] in ms;
    }
    forall s | s in n
      ensures s in m
    {
      assert n[s] in ms;
    }
  }

  /** A thread and its map are the same thing. */
  lemma MapOfThread(ms: seq<Message>)
    ensures BySequence(Thread(ms)) == BySequence(ms)
  {
    ThreadHolds(ms);
    ReadBack(Thread(ms));
    SameMap(Thread(ms), BySequence(Thread(ms)), BySequence(ms));
  }

  /** Merging the same page again changes nothing. */
  lemma MergeIsIdempotent(current: seq<Message>, incoming: seq<Message>)
    ensures Merge(Merge(current, incoming), incoming) == Merge(current, incoming)
  {
    var once := Merge(current, incoming);
    MapOfThread(current + incoming);
    BySequenceOfBoth(current, incoming);
    MergeIsUnion(once, incoming);
    MergeIsUnion(current, incoming);
    assert BySequence(once) + BySequence(incoming) == BySequence(once);
    SameThread(Merge(once, incoming), once, BySequence(once));
  }

  // ----- Pages of one log, in any order

  /** Everything a list says about a number, the log says too. */
  predicate FromLog(ms: seq<Message>, log: ByNumber) {
    forall x :: x in ms ==> x.sequence in log && log[x.sequence] == x
  }

  function MergeAll(current: seq<Message>, pages: seq<seq<Message>>): seq<Message> {
    if pages == [] then current else Merge(MergeAll(current, pages[..|pages| - 1]), pages[|pages| - 1])
  }

  lemma {:induction false} MemberFromLog(ms: seq<Message>, log: ByNumber, x: Message)
    requires FromLog(ms, log)
    ensures x in ms <==> x.sequence in BySequence(ms) && BySequence(ms)[x.sequence] == x
  {
    FoundInList(ms, x.sequence);
    if x in ms {
      if x != ms[|ms| - 1] {
        assert x in ms[..|ms| - 1];
        MemberFromLog(ms[..|ms| - 1], log, x);
        assert ms[|ms| - 1] in ms;
      }
    }
  }

  lemma MergedMember(a: seq<Message>, b: seq<Message>, log: ByNumber, x: Message)
    requires FromLog(a, log) && FromLog(b, log)
    ensures x in Merge(a, b) <==> x in a || x in b
  {
    MergeIsUnion(a, b);
    BySequenceOfBoth(a, b);
    MemberFromLog(a + b, log, x);
  }

  /** Pages of one log merge to the log's messages of all of them, whatever their order. */
  lemma {:induction false} MergedPages(current: seq<Message>, pages: seq<seq<Message>>, log: ByNumber)
    requires Ascending(current) && FromLog(current, log)
    requires forall p :: p in pages ==> FromLog(p, log)
    ensures Ascending(MergeAll(current, pages))
    ensures forall x :: x in MergeAll(current, pages) <==> x in current || exists p :: p in pages && x in p
  {
    if pages != [] {
      var last := pages[|pages| - 1];
      var rest := pages[..|pages| - 1];
      MergedPages(current, rest, log);
      var before := MergeAll(current, rest);
      forall x
        ensures x in Merge(before, last) <==> x in before || x in last
      {
        MergedMember(before, last, log, x);
      }
      forall x
        ensures (exists p :: p in pages && x in p) <==> x in last || exists p :: p in rest && x in p
      {
        assert forall p :: p in pages <==> p == last || p in rest;
      }
    }
  }

  /** The order in which pages of one log arrive does not show in the thread. */
  lemma PagesInAnyOrder(current: seq<Message>, pages: seq<seq<Message>>, reordered: seq<seq<Message>>, log: ByNumber)
    requires Ascending(current) && FromLog(current, log)
    requires forall p :: p in pages ==> FromLog(p, log)
    requires forall p :: p in pages <==> p in reordered
    ensures MergeAll(current, pages) == MergeAll(current, reordered)
  {
    MergedPages(current, pages, log);
    MergedPages(current, reordered, log);
    Determined(MergeAll(current, pages), MergeAll(current, reordered));
  }
}
