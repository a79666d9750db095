/** Comparing a restored database against its backup (`compareInventory`, `compareStructure`). */
module RestoreCheck {
  import opened Options
  import opened Sorting

  type Values = map<string, int>

  /** A `Record<string, number>` with the order in which its keys are listed. */
  datatype Counts = Counts(names: seq<string>, values: Values)

  ghost predicate Lists(c: Counts) {
    forall n :: n in c.names <==> n in c.values
  }

  /** Each listed key has a value. */
  predicate Valued(names: seq<string>, values: Values) {
    forall i :: 0 <= i < |names| ==> names[i] in values
  }

  lemma ListedIsValued(c: Counts)
    requires Lists(c)
    ensures Valued(c.names, c.values)
  {
    forall i | 0 <= i < |c.names|
      ensures c.names[i] in c.values
    {
      assert c.names[i] in c.names;
    }
  }

  function Lookup(values: Values, name: string): Option<int> {
    if name in values then Some(values[name]) else None
  }

  // ----- Row counts

  datatype InventoryDifference = InventoryDifference(table: string, expected: int, actual: Option<int>)

  /** What is reported of a table: nothing exactly when both sides say the same of it. */
  function TableDifference(expected: Values, actual: Values, table: string): Option<InventoryDifference> {
    if Lookup(expected, table) == Lookup(actual, table) then None
    else Some(InventoryDifference(table, if table in expected then expected[table] else 0, Lookup(actual, table)))
  }

  function Reported(difference: Option<InventoryDifference>): seq<InventoryDifference> {
    match difference
    case None => []
    case Some(d) => [d]
  }

  /** The tables of a list that differ, in its order. */
  function RowsOf(expected: Values, actual: Values, tables: seq<string>): seq<InventoryDifference> {
    if tables == [] then []
    else
      RowsOf(expected, actual, tables[..|tables| - 1])
      + Reported(TableDifference(expected, actual, tables[|tables| - 1]))
  }

  /** The tables of a list that were not expected, in its order. */
  function AddedRows(expected: Values, actual: Values, tables: seq<string>): seq<InventoryDifference> {
    if tables == [] then []
    else
      AddedRows(expected, actual, tables[..|tables| - 1])
      + if tables[|tables| - 1] in expected then []
        else Reported(TableDifference(expected, actual, tables[|tables| - 1]))
  }

  function InventoryDifferences(expected: Counts, actual: Counts): seq<InventoryDifference> {
    RowsOf(expected.values, actual.values, expected.names) + AddedRows(expected.values, actual.values, actual.names)
  }

  lemma RowsOfOneMore(expected: Values, actual: Values, tables: seq<string>, table: string)
    requires table in expected
    ensures RowsOf(expected, actual, tables + [table])
         == RowsOf(expected, actual, tables)
            + if Lookup(actual, table) == Some(expected[table]) then []
              else [InventoryDifference(table, expected[table], Lookup(actual, table))]
  {
    assert (tables + [table])[..|tables|] == tables;
  }

  lemma AddedOneMore(expected: Values, actual: Values, tables: seq<string>, table: string)
    requires table in actual
    ensures AddedRows(expected, actual, tables + [table])
         == AddedRows(expected, actual, tables)
            + if table in expected then [] else [InventoryDifference(table, 0, Some(actual[table]))]
  {
    assert (tables + [table])[..|tables|] == tables;
  }

  /** The loop over the expected tables. */
  method PushExpected(names: seq<string>, expected: Values, actual: Values)
    returns (differences: seq<InventoryDifference>)
    requires Valued(names, expected)
    ensures differences == RowsOf(expected, actual, names)
  {
    differences := [];
    for i := 0 to |names|
      invariant differences == RowsOf(expected, actual, names[..i])
    {
      var table := names[i];
      RowsOfOneMore(expected, actual, names[..i], table);
      assert names[..i + 1] == names[..i] + [table];
      if Lookup(actual, table) != Some(expected[table]) {
        differences := differences + [InventoryDifference(table, expected[table], Lookup(actual, table))];
      }
    }
    assert names[..|names|] == names;
  }

  /** The loop over the actual tables. */
  method PushAdded(expected: Values, names: seq<string>, actual: Values, pushed: seq<InventoryDifference>)
    returns (differences: seq<InventoryDifference>)
    requires Valued(names, actual)
    ensures differences == pushed + AddedRows(expected, actual, names)
  {
    differences := pushed;
    for i := 0 to |names|
      invariant differences == pushed + AddedRows(expected, actual, names[..i])
    {
      var table := names[i];
      AddedOneMore(expected, actual, names[..i], table);
      assert names[..i + 1] == names[..i] + [table];
      if table !in expected {
        differences := differences + [InventoryDifference(table, 0, Some(actual[table]))];
      }
    }
    assert names[..|names|] == names;
  }

  method CompareInventory(expected: Counts, actual: Counts) returns (differences: seq<InventoryDifference>)
    requires Lists(expected) && Lists(actual)
    ensures differences == InventoryDifferences(expected, actual)
  {
    ListedIsValued(expected);
    ListedIsValued(actual);
    differences := PushExpected(expected.names, expected.values, actual.values);
    differences := PushAdded(expected.values, actual.names, actual.values, differences);
  }

  lemma {:induction false} RowsMembers(
    expected: Values, actual: Values, tables: seq<string>, d: InventoryDifference)
    ensures d in RowsOf(expected, actual, tables) <==>
            d.table in tables && TableDifference(expected, actual, d.table) == Some(d)
  {
    if tables != [] {
      RowsMembers(expected, actual, tables[..|tables| - 1], d);
    }
  }

  lemma {:induction false} AddedMembers(
    expected: Values, actual: Values, tables: seq<string>, d: InventoryDifference)
    ensures d in AddedRows(expected, actual, tables) <==>
            d.table in tables && d.table !in expected && TableDifference(expected, actual, d.table) == Some(d)
  {
    if tables != [] {
      AddedMembers(expected, actual, tables[..|tables| - 1], d);
    }
  }

  lemma ReportsDifferences(expected: Counts, actual: Counts, d: InventoryDifference)
    requires Lists(expected) && Lists(actual)
    ensures d in InventoryDifferences(expected, actual) <==>
            TableDifference(expected.values, actual.values, d.table) == Some(d)
  {
    RowsMembers(expected.values, actual.values, expected.names, d);
    AddedMembers(expected.values, actual.values, actual.names, d);
  }

  /** A table that was expected and is missing or counted wrongly, or that was not expected and is
      there, which is reported as expected to be empty. */
  predicate WrongTable(expected: Values, actual: Values, d: InventoryDifference) {
    || (d.table in expected && d.expected == expected[d.table] && d.table !in actual && d.actual == None)
    || (d.table in expected && d.expected == expected[d.table] && d.table in actual
        && d.actual == Some(actual[d.table]) && d.expected != actual[d.table])
    || (d.table !in expected && d.expected == 0 && d.table in actual && d.actual == Some(actual[d.table]))
  }

  lemma WrongIsDifferent(expected: Values, actual: Values, d: InventoryDifference)
    ensures TableDifference(expected, actual, d.table) == Some(d) <==> WrongTable(expected, actual, d)
  {
  }

  /** Every missing, extra or wrongly counted table is reported, and nothing else is. */
  lemma ReportsExactlyTheWrongTables(expected: Counts, actual: Counts, d: InventoryDifference)
    requires Lists(expected) && Lists(actual)
    ensures d in InventoryDifferences(expected, actual) <==> WrongTable(expected.values, actual.values, d)
  {
    ReportsDifferences(expected, actual, d);
    WrongIsDifferent(expected.values, actual.values, d);
  }

  lemma {:induction false} RowsOnce(expected: Values, actual: Values, tables: seq<string>)
    requires Distinct(tables)
    ensures Distinct(RowsOf(expected, actual, tables))
  {
    if tables != [] {
      var before, last := tables[..|tables| - 1], tables[|tables| - 1];
      RowsOnce(expected, actual, before);
      assert last !in before;
      forall d | d in Reported(TableDifference(expected, actual, last))
        ensures d !in RowsOf(expected, actual, before)
      {
        RowsMembers(expected, actual, before, d);
      }
      DistinctBoth(RowsOf(expected, actual, before), Reported(TableDifference(expected, actual, last)));
    }
  }

  lemma {:induction false} AddedOnce(expected: Values, actual: Values, tables: seq<string>)
    requires Distinct(tables)
    ensures Distinct(AddedRows(expected, actual, tables))
  {
    if tables != [] {
      var before, last := tables[..|tables| - 1], tables[|tables| - 1];
      AddedOnce(expected, actual, before);
      assert last !in before;
      if last !in expected {
        forall d | d in Reported(TableDifference(expected, actual, last))
          ensures d !in AddedRows(expected, actual, before)
        {
          AddedMembers(expected, actual, before, d);
        }
        DistinctBoth(AddedRows(expected, actual, before), Reported(TableDifference(expected, actual, last)));
      }
    }
  }

  /** No table is reported twice. */
  lemma ReportsTablesOnce(expected: Counts, actual: Counts)
    requires Lists(expected) && Lists(actual) && Distinct(expected.names) && Distinct(actual.names)
    ensures Distinct(InventoryDifferences(expected, actual))
  {
    RowsOnce(expected.values, actual.values, expected.names);
    AddedOnce(expected.values, actual.values, actual.names);
    forall d | d in RowsOf(expected.values, actual.values, expected.names)
      ensures d !in AddedRows(expected.values, actual.values, actual.names)
    {
      RowsMembers(expected.values, actual.values, expected.names, d);
      AddedMembers(expected.values, actual.values, actual.names, d);
    }
    DistinctBoth(RowsOf(expected.values, actual.values, expected.names),
                 AddedRows(expected.values, actual.values, actual.names));
  }

  lemma EqualExactlyWhenNothingDiffers(expected: Values, actual: Values)
    ensures (forall t :: TableDifference(expected, actual, t) == None) <==> expected == actual
  {
    if forall t :: TableDifference(expected, actual, t) == None {
      forall t
        ensures t in expected <==> t in actual
        ensures t in expected && t in actual ==> expected[t] == actual[t]
      {
        assert TableDifference(expected, actual, t) == None;
      }
    }
  }

  /** Nothing is reported exactly when both sides have the same tables and counts. */
  lemma SilentExactlyWhenEqual(expected: Counts, actual: Counts)
    requires Lists(expected) && Lists(actual)
    ensures InventoryDifferences(expected, actual) == [] <==> expected.values == actual.values
  {
    var differences := InventoryDifferences(expected, actual);
    forall d
      ensures d in differences <==> TableDifference(expected.values, actual.values, d.table) == Some(d)
    {
      ReportsDifferences(expected, actual, d);
    }
    EqualExactlyWhenNothingDiffers(expected.values, actual.values);
    forall t | TableDifference(expected.values, actual.values, t).Some?
      ensures differences != []
    {
      assert TableDifference(expected.values, actual.values, t).value in differences;
    }
    assert differences != [] ==> differences[0] in differences;
  }

  // ----- Schema objects

  datatype Kind = Index | Constraint | View | Sequence

  datatype Detail = Missing | Extra | Moved(before: int, after: int)

  datatype StructureDifference = StructureDifference(kind: Kind, name: string, detail: Detail)

  datatype Structure = Structure(indexes: seq<string>, constraints: seq<string>, views: seq<string>, sequences: Counts)

  /** The names that are not among `others`, each time they are listed. */
  function Unmatched(kind: Kind, names: seq<string>, others: set<string>, detail: Detail): seq<StructureDifference> {
    if names == [] then []
    else
      var last := names[|names| - 1];
      Unmatched(kind, names[..|names| - 1], others, detail)
      + if last in others then [] else [StructureDifference(kind, last, detail)]
  }

  function SequenceDifference(name: string, before: int, after: Option<int>): seq<StructureDifference> {
    match after
    case None => [StructureDifference(Sequence, name, Missing)]
    case Some(value) => if value == before then [] else [StructureDifference(Sequence, name, Moved(before, value))]
  }

  function SequencesChanged(names: seq<string>, before: Values, after: Values): seq<StructureDifference>
    requires Valued(names, before)
  {
    if names == [] then []
    else
      var last := names[|names| - 1];
      SequencesChanged(names[..|names| - 1], before, after)
      + SequenceDifference(last, before[last], Lookup(after, last))
  }

  function Names(names: seq<string>): set<string> {
    set n | n in names
  }

  function ListDifferences(kind: Kind, before: seq<string>, after: seq<string>): seq<StructureDifference> {
    Unmatched(kind, before, Names(after), Missing) + Unmatched(kind, after, Names(before), Extra)
  }

  type NameLists = (Kind, seq<string>, seq<string>)

  function ThreeLists(expected: Structure, actual: Structure): seq<NameLists> {
    [(Index, expected.indexes, actual.indexes), (Constraint, expected.constraints, actual.constraints),
     (View, expected.views, actual.views)]
  }

  function OfLists(lists: seq<NameLists>): seq<StructureDifference> {
    if lists == [] then []
    else
      var (kind, before, after) := lists[|lists| - 1];
      OfLists(lists[..|lists| - 1]) + ListDifferences(kind, before, after)
  }

  function StructureDifferences(expected: Structure, actual: Structure): seq<StructureDifference>
    requires Lists(expected.sequences)
  {
    ListedIsValued(expected.sequences);
    OfLists(ThreeLists(expected, actual))
    + SequencesChanged(expected.sequences.names, expected.sequences.values, actual.sequences.values)
    + Unmatched(Sequence, actual.sequences.names, expected.sequences.values.Keys, Extra)
  }

  /** One of the loops over a list of names. */
  method PushUnmatched(
    kind: Kind, names: seq<string>, others: set<string>, detail: Detail, pushed: seq<StructureDifference>)
    returns (differences: seq<StructureDifference>)
    ensures differences == pushed + Unmatched(kind, names, others, detail)
  {
    differences := pushed;
    for i := 0 to |names|
      invariant differences == pushed + Unmatched(kind, names[..i], others, detail)
    {
      assert names[..i + 1][..i] == names[..i];
      if names[i] !in others {
        differences := differences + [StructureDifference(kind, names[i], detail)];
      }
    }
    assert names[..|names|] == names;
  }

  lemma ChangedOneMore(names: seq<string>, name: string, before: Values, after: Values)
    requires Valued(names, before) && name in before
    ensures Valued(names + [name], before)
    ensures SequencesChanged(names + [name], before, after)
         == SequencesChanged(names, before, after) + SequenceDifference(name, before[name], Lookup(after, name))
  {
    assert (names + [name])[..|names|] == names;
  }

  /** The loop over the expected sequences. */
  method PushSequences(
    names: seq<string>, before: Values, after: Values, pushed: seq<StructureDifference>)
    returns (differences: seq<StructureDifference>)
    requires Valued(names, before)
    ensures differences == pushed + SequencesChanged(names, before, after)
  {
    differences := pushed;
    for i := 0 to |names|
      invariant differences == pushed + SequencesChanged(names[..i], before, after)
    {
      var name := names[i];
      ChangedOneMore(names[..i], name, before, after);
      assert names[..i + 1] == names[..i] + [name];
      if name !in after {
        differences := differences + [StructureDifference(Sequence, name, Missing)];
      } else if after[name] != before[name] {
        differences := differences + [StructureDifference(Sequence, name, Moved(before[name], after[name]))];
      }
    }
    assert names[..|names|] == names;
  }

  method CompareStructure(expected: Structure, actual: Structure) returns (differences: seq<StructureDifference>)
    requires Lists(expected.sequences)
    ensures differences == StructureDifferences(expected, actual)
  {
    differences := [];
    var lists := ThreeLists(expected, actual);
    for i := 0 to |lists|
      invariant differences == OfLists(lists[..i])
    {
      var (kind, before, after) := lists[i];
      assert lists[..i + 1][..i] == lists[..i];
      ghost var sofar := differences;
      differences := PushUnmatched(kind, before, Names(after), Missing, differences);
      differences := PushUnmatched(kind, after, Names(before), Extra, differences);
      assert differences == sofar + ListDifferences(kind, before, after);
    }
    assert lists[..|lists|] == lists;
    ListedIsValued(expected.sequences);
    differences := PushSequences(
      expected.sequences.names, expected.sequences.values, actual.sequences.values, differences);
    differences := PushUnmatched(Sequence, actual.sequences.names, expected.sequences.values.Keys, Extra, differences);
  }

  /** The list of names a difference of a kind is about. */
  function Listed(s: Structure, kind: Kind): seq<string> {
    match kind
    case Index => s.indexes
    case Constraint => s.constraints
    case View => s.views
    case Sequence => s.sequences.names
  }

  /** What makes a difference one to report. */
  ghost predicate Differs(expected: Structure, actual: Structure, d: StructureDifference) {
    match d.detail
    case Missing => d.name in Listed(expected, d.kind) && d.name !in Listed(actual, d.kind)
    case Extra => d.name !in Listed(expected, d.kind) && d.name in Listed(actual, d.kind)
    case Moved(before, after) =>
      && d.kind == Sequence && before != after
      && Lookup(expected.sequences.values, d.name) == Some(before)
      && Lookup(actual.sequences.values, d.name) == Some(after)
  }

  predicate OneSided(before: seq<string>, after: seq<string>, d: StructureDifference) {
    || (d.detail == Missing && d.name in before && d.name !in after)
    || (d.detail == Extra && d.name in after && d.name !in before)
  }

  lemma {:induction false} UnmatchedMembers(
    kind: Kind, names: seq<string>, others: set<string>, detail: Detail, d: StructureDifference)
    ensures d in Unmatched(kind, names, others, detail) <==>
            d.kind == kind && d.detail == detail && d.name in names && d.name !in others
  {
    if names != [] {
      UnmatchedMembers(kind, names[..|names| - 1], others, detail, d);
    }
  }

  lemma {:induction false} ChangedMembers(
    names: seq<string>, before: Values, after: Values, d: StructureDifference)
    requires Valued(names, before)
    ensures d in SequencesChanged(names, before, after) <==>
            && d.name in names && d.name in before
            && d in SequenceDifference(d.name, before[d.name], Lookup(after, d.name))
  {
    if names != [] {
      ChangedMembers(names[..|names| - 1], before, after, d);
    }
  }

  lemma ListMembers(kind: Kind, before: seq<string>, after: seq<string>, d: StructureDifference)
    ensures d in ListDifferences(kind, before, after) <==>
            d.kind == kind && OneSided(before, after, d)
  {
    UnmatchedMembers(kind, before, Names(after), Missing, d);
    UnmatchedMembers(kind, after, Names(before), Extra, d);
  }

  lemma OfThreeLists(expected: Structure, actual: Structure)
    ensures OfLists(ThreeLists(expected, actual))
         == ListDifferences(Index, expected.indexes, actual.indexes)
            + ListDifferences(Constraint, expected.constraints, actual.constraints)
            + ListDifferences(View, expected.views, actual.views)
  {
    var lists := ThreeLists(expected, actual);
    assert lists[..2] == [lists[0], lists[1]] && lists[..2][..1] == [lists[0]];
    assert OfLists(lists[..2][..1]) == ListDifferences(Index, expected.indexes, actual.indexes);
    assert OfLists(lists[..2])
        == OfLists(lists[..2][..1]) + ListDifferences(Constraint, expected.constraints, actual.constraints);
  }

  /** The parts of the report together, each given by what it holds. */
  lemma FromParts(expected: Structure, actual: Structure, d: StructureDifference,
                  index: bool, constraint: bool, view: bool, changed: bool, extra: bool)
    requires Lists(expected.sequences) && Lists(actual.sequences)
    requires index <==> d.kind == Index && OneSided(expected.indexes, actual.indexes, d)
    requires constraint <==> d.kind == Constraint && OneSided(expected.constraints, actual.constraints, d)
    requires view <==> d.kind == View && OneSided(expected.views, actual.views, d)
    requires changed <==>
             && d.name in expected.sequences.names
             && d in SequenceDifference(
                       d.name, expected.sequences.values[d.name], Lookup(actual.sequences.values, d.name))
    requires extra <==> d.kind == Sequence && d.detail == Extra && d.name in actual.sequences.names
                        && d.name !in expected.sequences.values
    ensures index || constraint || view || changed || extra <==> Differs(expected, actual, d)
  {
    assert d.name in expected.sequences.names <==> d.name in expected.sequences.values;
    assert d.name in actual.sequences.names <==> d.name in actual.sequences.values;
  }

  /** Every missing, extra or wrong-valued object is reported, and nothing else is. */
  lemma ReportsExactlyWhatDiffers(expected: Structure, actual: Structure, d: StructureDifference)
    requires Lists(expected.sequences) && Lists(actual.sequences)
    ensures d in StructureDifferences(expected, actual) <==> Differs(expected, actual, d)
  {
    ListMembers(Index, expected.indexes, actual.indexes, d);
    ListMembers(Constraint, expected.constraints, actual.constraints, d);
    ListMembers(View, expected.views, actual.views, d);
    ListedIsValued(expected.sequences);
    ChangedMembers(expected.sequences.names, expected.sequences.values, actual.sequences.values, d);
    UnmatchedMembers(Sequence, actual.sequences.names, expected.sequences.values.Keys, Extra, d);
    OfThreeLists(expected, actual);
    FromParts(expected, actual, d,
              d in ListDifferences(Index, expected.indexes, actual.indexes),
              d in ListDifferences(Constraint, expected.constraints, actual.constraints),
              d in ListDifferences(View, expected.views, actual.views),
              d in SequencesChanged(expected.sequences.names, expected.sequences.values, actual.sequences.values),
              d in Unmatched(Sequence, actual.sequences.names, expected.sequences.values.Keys, Extra));
  }

  lemma {:induction false} UnmatchedOnce(kind: Kind, names: seq<string>, others: set<string>, detail: Detail)
    requires Distinct(names)
    ensures Distinct(Unmatched(kind, names, others, detail))
  {
    if names != [] {
      var before, last := names[..|names| - 1], names[|names| - 1];
      UnmatchedOnce(kind, before, others, detail);
      assert last !in before;
      UnmatchedMembers(kind, before, others, detail, StructureDifference(kind, last, detail));
      DistinctBoth(Unmatched(kind, before, others, detail), [StructureDifference(kind, last, detail)]);
    }
  }

  lemma {:induction false} ChangedOnce(names: seq<string>, before: Values, after: Values)
    requires Valued(names, before) && Distinct(names)
    ensures Distinct(SequencesChanged(names, before, after))
  {
    if names != [] {
      var rest, last := names[..|names| - 1], names[|names| - 1];
      ChangedOnce(rest, before, after);
      assert last !in rest;
      var here := SequenceDifference(last, before[last], Lookup(after, last));
      forall d | d in here
        ensures d !in SequencesChanged(rest, before, after)
      {
        ChangedMembers(rest, before, after, d);
      }
      DistinctBoth(SequencesChanged(rest, before, after), here);
    }
  }

  lemma ListOnce(kind: Kind, before: seq<string>, after: seq<string>)
    requires Distinct(before) && Distinct(after)
    ensures Distinct(ListDifferences(kind, before, after))
    ensures forall d :: d in ListDifferences(kind, before, after) ==> d.kind == kind
  {
    UnmatchedOnce(kind, before, Names(after), Missing);
    UnmatchedOnce(kind, after, Names(before), Extra);
    forall d
      ensures d in Unmatched(kind, before, Names(after), Missing) ==> d.kind == kind && d.detail == Missing
      ensures d in Unmatched(kind, after, Names(before), Extra) ==> d.kind == kind && d.detail == Extra
    {
      UnmatchedMembers(kind, before, Names(after), Missing, d);
      UnmatchedMembers(kind, after, Names(before), Extra, d);
    }
    DistinctBoth(Unmatched(kind, before, Names(after), Missing), Unmatched(kind, after, Names(before), Extra));
  }

  lemma SequencesOnce(before: Counts, after: Counts)
    requires Lists(before) && Lists(after) && Distinct(before.names) && Distinct(after.names)
    requires Valued(before.names, before.values)
    ensures var ds := SequencesChanged(before.names, before.values, after.values)
                      + Unmatched(Sequence, after.names, before.values.Keys, Extra);
            Distinct(ds) && forall d :: d in ds ==> d.kind == Sequence
  {
    ChangedOnce(before.names, before.values, after.values);
    UnmatchedOnce(Sequence, after.names, before.values.Keys, Extra);
    forall d
      ensures d in SequencesChanged(before.names, before.values, after.values) ==>
                d.kind == Sequence && d.detail != Extra
      ensures d in Unmatched(Sequence, after.names, before.values.Keys, Extra) ==>
                d.kind == Sequence && d.detail == Extra
    {
      ChangedMembers(before.names, before.values, after.values, d);
      UnmatchedMembers(Sequence, after.names, before.values.Keys, Extra, d);
    }
    DistinctBoth(SequencesChanged(before.names, before.values, after.values),
                 Unmatched(Sequence, after.names, before.values.Keys, Extra));
  }

  lemma Regroup(a: seq<StructureDifference>, b: seq<StructureDifference>, c: seq<StructureDifference>)
    ensures a + b + c == a + (b + c)
  {
  }

  lemma FourKinds(
    a: seq<StructureDifference>, b: seq<StructureDifference>, c: seq<StructureDifference>, e: seq<StructureDifference>)
    requires Distinct(a) && Distinct(b) && Distinct(c) && Distinct(e)
    requires (forall d :: d in a ==> d.kind == Index) && (forall d :: d in b ==> d.kind == Constraint)
    requires (forall d :: d in c ==> d.kind == View) && (forall d :: d in e ==> d.kind == Sequence)
    ensures Distinct(a + b + c + e)
  {
    DistinctBoth(a, b);
    DistinctBoth(a + b, c);
    DistinctBoth(a + b + c, e);
  }

  /** When no list of names repeats itself, no object is reported twice. */
  lemma ReportsObjectsOnce(expected: Structure, actual: Structure)
    requires Lists(expected.sequences) && Lists(actual.sequences)
    requires forall kind :: Distinct(Listed(expected, kind)) && Distinct(Listed(actual, kind))
    ensures Distinct(StructureDifferences(expected, actual))
  {
    ListedIsValued(expected.sequences);
    OfThreeLists(expected, actual);
    assert Listed(expected, Index) == expected.indexes && Listed(actual, Index) == actual.indexes;
    assert Listed(expected, Constraint) == expected.constraints && Listed(actual, Constraint) == actual.constraints;
    assert Listed(expected, View) == expected.views && Listed(actual, View) == actual.views;
    assert Listed(expected, Sequence) == expected.sequences.names && Listed(actual, Sequence) == actual.sequences.names;
    ListOnce(Index, expected.indexes, actual.indexes);
    ListOnce(Constraint, expected.constraints, actual.constraints);
    ListOnce(View, expected.views, actual.views);
    SequencesOnce(expected.sequences, actual.sequences);
    FourKinds(ListDifferences(Index, expected.indexes, actual.indexes),
              ListDifferences(Constraint, expected.constraints, actual.constraints),
              ListDifferences(View, expected.views, actual.views),
              SequencesChanged(expected.sequences.names, expected.sequences.values, actual.sequences.values)
              + Unmatched(Sequence, actual.sequences.names, expected.sequences.values.Keys, Extra));
    Regroup(OfLists(ThreeLists(expected, actual)),
            SequencesChanged(expected.sequences.names, expected.sequences.values, actual.sequences.values),
            Unmatched(Sequence, actual.sequences.names, expected.sequences.values.Keys, Extra));
  }

  /** The same indexes, constraints and views, and the same sequences at the same values. */
  ghost predicate Same(expected: Structure, actual: Structure) {
    && Names(expected.indexes) == Names(actual.indexes)
    && Names(expected.constraints) == Names(actual.constraints)
    && Names(expected.views) == Names(actual.views)
    && expected.sequences.values == actual.sequences.values
  }

  lemma NotSameWhenOneDiffers(expected: Structure, actual: Structure, d: StructureDifference)
    requires Lists(expected.sequences) && Lists(actual.sequences) && Differs(expected, actual, d)
    ensures !Same(expected, actual)
  {
    assert d.name in Listed(expected, d.kind) <==> d.name in Names(Listed(expected, d.kind));
    assert d.name in Listed(actual, d.kind) <==> d.name in Names(Listed(actual, d.kind));
    assert d.name in Listed(expected, Sequence) <==> d.name in expected.sequences.values;
    assert d.name in Listed(actual, Sequence) <==> d.name in actual.sequences.values;
  }

  lemma SameMaps(a: Values, b: Values)
    requires forall n :: Lookup(a, n) == Lookup(b, n)
    ensures a == b
  {
    forall n
      ensures n in a <==> n in b
      ensures n in a && n in b ==> a[n] == b[n]
    {
      assert Lookup(a, n) == Lookup(b, n);
    }
  }

  lemma SameNames(expected: Structure, actual: Structure, kind: Kind)
    requires forall d :: !Differs(expected, actual, d)
    ensures Names(Listed(expected, kind)) == Names(Listed(actual, kind))
  {
    forall n
      ensures n in Listed(expected, kind) <==> n in Listed(actual, kind)
    {
      assert !Differs(expected, actual, StructureDifference(kind, n, Missing));
      assert !Differs(expected, actual, StructureDifference(kind, n, Extra));
    }
  }

  lemma SameValue(expected: Structure, actual: Structure, n: string)
    requires Lists(expected.sequences) && Lists(actual.sequences)
    requires n in expected.sequences.values && forall d :: !Differs(expected, actual, d)
    ensures Lookup(actual.sequences.values, n) == Some(expected.sequences.values[n])
  {
    SameNames(expected, actual, Sequence);
    assert n in Names(expected.sequences.names);
    assert n in Names(actual.sequences.names);
    assert !Differs(expected, actual,
                    StructureDifference(Sequence, n, Moved(expected.sequences.values[n], actual.sequences.values[n])));
  }

  lemma SameWhenNothingDiffers(expected: Structure, actual: Structure)
    requires Lists(expected.sequences) && Lists(actual.sequences) && forall d :: !Differs(expected, actual, d)
    ensures Same(expected, actual)
  {
    SameNames(expected, actual, Index);
    SameNames(expected, actual, Constraint);
    SameNames(expected, actual, View);
    SameNames(expected, actual, Sequence);
    forall n
      ensures Lookup(expected.sequences.values, n) == Lookup(actual.sequences.values, n)
    {
      assert n in Names(Listed(expected, Sequence)) <==> n in expected.sequences.values;
      assert n in Names(Listed(actual, Sequence)) <==> n in actual.sequences.values;
      if n in expected.sequences.values {
        SameValue(expected, actual, n);
      }
    }
    SameMaps(expected.sequences.values, actual.sequences.values);
  }

  /** Nothing is reported exactly when both sides are the same. */
  lemma SilentExactlyWhenSame(expected: Structure, actual: Structure)
    requires Lists(expected.sequences) && Lists(actual.sequences)
    ensures StructureDifferences(expected, actual) == [] <==> Same(expected, actual)
  {
    var differences := StructureDifferences(expected, actual);
    forall d
      ensures d in differences <==> Differs(expected, actual, d)
    {
      ReportsExactlyWhatDiffers(expected, actual, d);
    }
    if differences == [] {
      SameWhenNothingDiffers(expected, actual);
    } else {
      assert differences[0] in differences;
      NotSameWhenOneDiffers(expected, actual, differences[0]);
    }
  }
}
