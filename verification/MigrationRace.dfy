/** Migration runners at work side by side on one database, statement by statement. */
module MigrationRace {
  import opened Sorting
  import opened Migrations

  /** What a runner has done for its current file: nothing, found no row for it, run its statements
      in a transaction, added its row in that transaction. */
  datatype Phase = Checking | Absent | Executed | Inserted

  datatype Runner = Runner(pending: seq<string>, at: nat, phase: Phase, stopped: bool)

  datatype World = World(db: Db, runners: seq<Runner>)

  datatype Event =
    | Start(pending: seq<string>)
    | Look(r: nat)
    | Perform(r: nat)
    | Insert(r: nat)
    | Accept(r: nat)
    | Stop(r: nat)

  const IDLE := World(EMPTY, [])

  predicate Works(w: World, r: nat, phase: Phase) {
    r < |w.runners| && !w.runners[r].stopped && w.runners[r].phase == phase && w.runners[r].at < |w.runners[r].pending|
  }

  function Current(w: World, r: nat, phase: Phase): string
    requires Works(w, r, phase)
  {
    w.runners[r].pending[w.runners[r].at]
  }

  /** Another transaction has added the same row and is still open: the insert has to wait. */
  predicate Waits(w: World, r: nat)
    requires Works(w, r, Executed)
  {
    exists q: nat | q < |w.runners| ::
      q != r && Works(w, q, Inserted) && Current(w, q, Inserted) == Current(w, r, Executed)
  }

  predicate Enabled(w: World, e: Event) {
    match e
    case Start(_) => true
    case Look(r) => Works(w, r, Checking)
    case Perform(r) => Works(w, r, Absent)
    case Insert(r) => Works(w, r, Executed) && !Waits(w, r)
    case Accept(r) => Works(w, r, Inserted)
    case Stop(r) => r < |w.runners|
  }

  function Set(w: World, r: nat, runner: Runner): World
    requires r < |w.runners|
  {
    w.(runners := w.runners[r := runner])
  }

  /** A row that is there by the time of the insert fails it, and the run with it. */
  function Step(w: World, e: Event): World
    requires Enabled(w, e)
  {
    match e
    case Start(pending) => w.(runners := w.runners + [Runner(pending, 0, Checking, false)])
    case Look(r) =>
      var me := w.runners[r];
      Set(w, r, if Current(w, r, Checking) in w.db.recorded then me.(at := me.at + 1) else me.(phase := Absent))
    case Perform(r) => Set(w, r, w.runners[r].(phase := Executed))
    case Insert(r) =>
      var me := w.runners[r];
      Set(w, r, if Current(w, r, Executed) in w.db.recorded then me.(stopped := true) else me.(phase := Inserted))
    case Accept(r) =>
      var me := w.runners[r];
      Set(w.(db := Apply(w.db, Current(w, r, Inserted))), r, me.(at := me.at + 1, phase := Checking))
    case Stop(r) => Set(w, r, w.runners[r].(stopped := true))
  }

  predicate Legal(w: World, es: seq<Event>)
    decreases |es|
  {
    es == [] || (Enabled(w, es[0]) && Legal(Step(w, es[0]), es[1..]))
  }

  function Run(w: World, es: seq<Event>): World
    requires Legal(w, es)
    decreases |es|
  {
    if es == [] then w else Run(Step(w, es[0]), es[1..])
  }

  // ----- What every step keeps

  /** An open transaction that has added its row is the only one for that row, and the row is new. */
  ghost predicate RowsApart(w: World) {
    && (forall r: nat :: Works(w, r, Inserted) ==> Current(w, r, Inserted) !in w.db.recorded)
    && (forall q: nat, r: nat :: q != r && Works(w, q, Inserted) && Works(w, r, Inserted) ==>
          Current(w, q, Inserted) != Current(w, r, Inserted))
  }

  /** A runner has passed only files that are recorded. */
  ghost predicate Passed(runner: Runner, recorded: set<string>) {
    runner.at <= |runner.pending| && forall i :: 0 <= i < runner.at ==> runner.pending[i] in recorded
  }

  ghost predicate PassedRecorded(w: World) {
    forall r :: 0 <= r < |w.runners| ==> Passed(w.runners[r], w.db.recorded)
  }

  ghost predicate Inv(w: World) {
    Good(w.db) && RowsApart(w) && PassedRecorded(w)
  }

  lemma SetKeepsRows(w: World, r: nat, runner: Runner)
    requires RowsApart(w) && r < |w.runners|
    requires runner.phase != Inserted || runner.stopped
    ensures RowsApart(Set(w, r, runner))
  {
    var v := Set(w, r, runner);
    assert forall q: nat :: Works(v, q, Inserted) ==> q != r && Works(w, q, Inserted);
  }

  lemma InsertKeepsRows(w: World, r: nat)
    requires RowsApart(w) && Works(w, r, Executed) && !Waits(w, r) && Current(w, r, Executed) !in w.db.recorded
    ensures RowsApart(Set(w, r, w.runners[r].(phase := Inserted)))
  {
    var v := Set(w, r, w.runners[r].(phase := Inserted));
    assert forall q: nat :: q != r && Works(v, q, Inserted) ==>
                              Works(w, q, Inserted) && Current(v, q, Inserted) != Current(w, r, Executed);
  }

  lemma AcceptKeepsRows(w: World, r: nat, runner: Runner)
    requires RowsApart(w) && Works(w, r, Inserted) && runner.phase == Checking
    ensures RowsApart(Set(w.(db := Apply(w.db, Current(w, r, Inserted))), r, runner))
  {
    var v := Set(w.(db := Apply(w.db, Current(w, r, Inserted))), r, runner);
    assert forall q: nat :: Works(v, q, Inserted) ==> q != r && Works(w, q, Inserted);
  }

  lemma StepKeepsRows(w: World, e: Event)
    requires Inv(w) && Enabled(w, e)
    ensures Good(Step(w, e).db) && RowsApart(Step(w, e))
  {
    match e
    case Start(pending) =>
      var v := Step(w, e);
      assert forall q: nat :: Works(v, q, Inserted) ==> Works(w, q, Inserted);
    case Look(r) => SetKeepsRows(w, r, Step(w, e).runners[r]);
    case Perform(r) => SetKeepsRows(w, r, w.runners[r].(phase := Executed));
    case Insert(r) =>
      if Current(w, r, Executed) in w.db.recorded {
        SetKeepsRows(w, r, w.runners[r].(stopped := true));
      } else {
        InsertKeepsRows(w, r);
      }
    case Accept(r) =>
      ApplyKeepsGood(w.db, Current(w, r, Inserted));
      AcceptKeepsRows(w, r, Step(w, e).runners[r]);
    case Stop(r) => SetKeepsRows(w, r, w.runners[r].(stopped := true));
  }

  lemma PassedOneMore(runner: Runner, recorded: set<string>)
    requires Passed(runner, recorded) && runner.at < |runner.pending| && runner.pending[runner.at] in recorded
    ensures Passed(runner.(at := runner.at + 1, phase := Checking), recorded)
    ensures Passed(runner.(at := runner.at + 1), recorded)
  {
  }

  lemma StepKeepsPassed(w: World, e: Event)
    requires Inv(w) && Enabled(w, e)
    ensures PassedRecorded(Step(w, e))
  {
    var v := Step(w, e);
    assert w.db.recorded <= v.db.recorded;
    if !e.Start? {
      assert Passed(w.runners[e.r], v.db.recorded) by {
        assert Passed(w.runners[e.r], w.db.recorded);
      }
      if v.runners[e.r].at != w.runners[e.r].at {
        PassedOneMore(w.runners[e.r], v.db.recorded);
      }
    }
    forall r | 0 <= r < |w.runners|
      ensures Passed(v.runners[r], v.db.recorded)
    {
      assert Passed(w.runners[r], w.db.recorded);
    }
  }

  lemma {:induction false} RunKeepsInv(w: World, es: seq<Event>)
    requires Inv(w) && Legal(w, es)
    ensures Inv(Run(w, es))
    decreases |es|
  {
    if es != [] {
      StepKeepsRows(w, es[0]);
      StepKeepsPassed(w, es[0]);
      RunKeepsInv(Step(w, es[0]), es[1..]);
    }
  }

  /** However the statements of any number of runners interleave, and wherever runners stop, what
      took effect is what is recorded, each migration once. */
  lemma EachAtMostOnceInARace(es: seq<Event>)
    requires Legal(IDLE, es)
    ensures Good(Run(IDLE, es).db)
  {
    RunKeepsInv(IDLE, es);
  }

  // ----- Runners of the same list

  ghost predicate AllRun(w: World, p: seq<string>) {
    forall r :: 0 <= r < |w.runners| ==> w.runners[r].pending == p
  }

  ghost predicate InOrder(w: World, p: seq<string>) {
    |w.db.executed| <= |p| && w.db.executed == p[..|w.db.executed|]
  }

  lemma InPrefix(p: seq<string>, n: nat)
    requires Distinct(p) && n <= |p|
    ensures forall i :: 0 <= i < |p| ==> (p[i] in p[..n] <==> i < n)
  {
    assert forall i :: 0 <= i < n ==> p[..n][i] == p[i];
  }

  lemma AcceptIsNext(w: World, r: nat, p: seq<string>)
    requires Inv(w) && Distinct(p) && AllRun(w, p) && InOrder(w, p) && Works(w, r, Inserted)
    ensures w.runners[r].at == |w.db.executed|
  {
    var n, at := |w.db.executed|, w.runners[r].at;
    InPrefix(p, n);
    assert Passed(w.runners[r], w.db.recorded);
    assert p[at] !in w.db.recorded;
    assert at == 0 || p[at - 1] in w.db.recorded;
  }

  lemma {:induction false} RaceInOrderFrom(w: World, es: seq<Event>, p: seq<string>)
    requires Inv(w) && Legal(w, es) && Distinct(p) && AllRun(w, p) && InOrder(w, p)
    requires forall i :: 0 <= i < |es| && es[i].Start? ==> es[i].pending == p
    ensures InOrder(Run(w, es), p)
    decreases |es|
  {
    if es != [] {
      StepKeepsRows(w, es[0]);
      StepKeepsPassed(w, es[0]);
      if es[0].Accept? {
        AcceptIsNext(w, es[0].r, p);
      }
      RaceInOrderFrom(Step(w, es[0]), es[1..], p);
    }
  }

  /** Runners of the same list execute it in its order, from the first on and without a gap. */
  lemma RaceInOrder(es: seq<Event>, p: seq<string>)
    requires Legal(IDLE, es) && Distinct(p)
    requires forall i :: 0 <= i < |es| && es[i].Start? ==> es[i].pending == p
    ensures InOrder(Run(IDLE, es), p)
  {
    RaceInOrderFrom(IDLE, es, p);
  }

  // ----- A runner left alone

  lemma RunOfCons(w: World, e: Event, es: seq<Event>)
    requires Enabled(w, e) && Legal(Step(w, e), es)
    ensures Legal(w, [e] + es) && Run(w, [e] + es) == Run(Step(w, e), es)
  {
    assert ([e] + es)[1..] == es;
  }

  lemma {:induction false} RunOfBoth(w: World, es: seq<Event>, fs: seq<Event>)
    requires Legal(w, es) && Legal(Run(w, es), fs)
    ensures Legal(w, es + fs) && Run(w, es + fs) == Run(Run(w, es), fs)
    decreases |es|
  {
    if es == [] {
      assert es + fs == fs;
    } else {
      RunOfBoth(Step(w, es[0]), es[1..], fs);
      assert (es + fs)[1..] == es[1..] + fs;
    }
  }

  /** No other runner's row is waiting for its COMMIT. */
  predicate NoOpenRow(w: World, r: nat) {
    forall q: nat | q < |w.runners| :: q != r ==> !Works(w, q, Inserted)
  }

  /** The world after `r` has dealt with its current file. */
  function FileDone(w: World, r: nat): World
    requires Works(w, r, Checking)
  {
    var key := Current(w, r, Checking);
    var db := if key in w.db.recorded then w.db else Apply(w.db, key);
    Set(w.(db := db), r, w.runners[r].(at := w.runners[r].at + 1))
  }

  /** A runner that nobody holds up gets its current file recorded, by a check alone or by running it
      and committing. */
  lemma OneFile(w: World, r: nat) returns (es: seq<Event>)
    requires Works(w, r, Checking) && NoOpenRow(w, r)
    ensures Legal(w, es) && Run(w, es) == FileDone(w, r)
  {
    if Current(w, r, Checking) in w.db.recorded {
      es := [Look(r)] + [];
      RunOfCons(w, Look(r), []);
    } else {
      var me := w.runners[r];
      var absent := Step(w, Look(r));
      var ran := Step(absent, Perform(r));
      assert ran == Set(w, r, me.(phase := Executed));
      assert !Waits(ran, r) by {
        assert forall q: nat :: q < |w.runners| && q != r ==> !Works(w, q, Inserted) && ran.runners[q] == w.runners[q];
      }
      var inserted := Step(ran, Insert(r));
      assert inserted == Set(w, r, me.(phase := Inserted));
      var done := Step(inserted, Accept(r));
      assert done.runners == w.runners[r := me.(at := me.at + 1)];
      RunOfCons(inserted, Accept(r), []);
      RunOfCons(ran, Insert(r), [Accept(r)] + []);
      RunOfCons(absent, Perform(r), [Insert(r)] + ([Accept(r)] + []));
      RunOfCons(w, Look(r), [Perform(r)] + ([Insert(r)] + ([Accept(r)] + [])));
      es := [Look(r)] + ([Perform(r)] + ([Insert(r)] + ([Accept(r)] + [])));
    }
  }

  /** A runner that nobody holds up can always finish, and then its whole list is recorded. */
  lemma {:induction false} RunnerAloneFinishes(w: World, r: nat) returns (es: seq<Event>)
    requires Inv(w) && r < |w.runners| && NoOpenRow(w, r)
    requires !w.runners[r].stopped && w.runners[r].phase == Checking
    ensures Legal(w, es)
    ensures var v := Run(w, es);
            && r < |v.runners| && v.runners[r] == w.runners[r].(at := |w.runners[r].pending|)
            && (forall k :: k in w.runners[r].pending ==> k in v.db.recorded)
    decreases |w.runners[r].pending| - w.runners[r].at
  {
    assert Passed(w.runners[r], w.db.recorded);
    if w.runners[r].at == |w.runners[r].pending| {
      es := [];
    } else {
      var first := OneFile(w, r);
      var v := FileDone(w, r);
      RunKeepsInv(w, first);
      assert NoOpenRow(v, r) by {
        forall q: nat | q < |v.runners| && q != r
          ensures !Works(v, q, Inserted)
        {
          assert !Works(w, q, Inserted);
        }
      }
      var rest := RunnerAloneFinishes(v, r);
      RunOfBoth(w, first, rest);
      es := first + rest;
    }
  }
}
