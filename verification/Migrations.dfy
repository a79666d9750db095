/** The migration runner: one run after another against one database, each of them free to break
    off at any statement. `leq` compares strings, as `localeCompare` does. */
module Migrations {
  import opened Options
  import opened Sorting

  // ----- Which migrations, in which order

  datatype File = File(schemaDir: string, file: string)

  datatype Dir = Dir(name: string, files: seq<string>)

  type Comparison = (string, string) -> bool

  function Key(f: File): string {
    f.schemaDir + "/" + f.file
  }

  predicate IsSql(file: string) {
    |file| >= 4 && file[|file| - 4..] == ".sql"
  }

  function FilesOf(dir: string, files: seq<string>): seq<File> {
    if files == [] then []
    else (if IsSql(files[0]) then [File(dir, files[0])] else []) + FilesOf(dir, files[1..])
  }

  function Listing(dirs: seq<Dir>): seq<File> {
    if dirs == [] then [] else FilesOf(dirs[0].name, dirs[0].files) + Listing(dirs[1..])
  }

  /** By file name across schemas, then by schema. */
  function ByFile(leq: Comparison): (File, File) -> bool {
    (a: File, b: File) => if a.file == b.file then leq(a.schemaDir, b.schemaDir) else leq(a.file, b.file)
  }

  function Pending(dirs: seq<Dir>, leq: Comparison): seq<File> {
    Sort(Listing(dirs), ByFile(leq))
  }

  lemma ByFileIsOrder(leq: Comparison)
    requires TotalOrder(leq)
    ensures TotalOrder(ByFile(leq))
  {
    var byFile := ByFile(leq);
    forall a, b
      ensures byFile(a, b) || byFile(b, a)
      ensures byFile(a, b) && byFile(b, a) ==> a == b
    {
      assert leq(a.schemaDir, b.schemaDir) || leq(b.schemaDir, a.schemaDir);
      assert leq(a.file, b.file) || leq(b.file, a.file);
    }
    forall a, b, c | byFile(a, b) && byFile(b, c)
      ensures byFile(a, c)
    {
      assert leq(a.schemaDir, b.schemaDir) && leq(b.schemaDir, c.schemaDir) ==> leq(a.schemaDir, c.schemaDir);
      assert leq(a.file, b.file) && leq(b.file, c.file) ==> leq(a.file, c.file);
    }
  }

  lemma {:induction false} InFilesOf(dir: string, files: seq<string>, f: File)
    ensures f in FilesOf(dir, files) <==> f.schemaDir == dir && f.file in files && IsSql(f.file)
  {
    if files != [] {
      InFilesOf(dir, files[1..], f);
    }
  }

  lemma {:induction false} InListing(dirs: seq<Dir>, f: File)
    ensures f in Listing(dirs) <==> exists d :: d in dirs && d.name == f.schemaDir && f.file in d.files && IsSql(f.file)
  {
    if dirs != [] {
      InFilesOf(dirs[0].name, dirs[0].files, f);
      InListing(dirs[1..], f);
      assert forall d :: d in dirs <==> d == dirs[0] || d in dirs[1..];
    }
  }

  /** Ordered by file name, whatever the schema; files of the same name by schema. */
  ghost predicate ByNameThenSchema(files: seq<File>, leq: Comparison) {
    forall i, j :: 0 <= i < j < |files| ==>
      && leq(files[i].file, files[j].file)
      && (files[i].file == files[j].file ==> leq(files[i].schemaDir, files[j].schemaDir))
  }

  lemma OrderedByFile(files: seq<File>, leq: Comparison)
    requires TotalOrder(leq) && Ordered(files, ByFile(leq))
    ensures ByNameThenSchema(files, leq)
  {
    forall i, j | 0 <= i < j < |files|
      ensures leq(files[i].file, files[j].file)
      ensures files[i].file == files[j].file ==> leq(files[i].schemaDir, files[j].schemaDir)
    {
      assert ByFile(leq)(files[i], files[j]);
      assert leq(files[i].file, files[i].file);
    }
  }

  lemma EndsInSql(file: string)
    ensures IsSql(file) <==> exists stem :: file == stem + ".sql"
  {
    if IsSql(file) {
      assert file == file[..|file| - 4] + ".sql";
    }
  }

  /** The order of a run: exactly the `.sql` files, by file name and then schema, whatever the order
      in which the directories are read. */
  lemma PendingInOrder(dirs: seq<Dir>, others: seq<Dir>, leq: Comparison)
    requires TotalOrder(leq)
    ensures ByNameThenSchema(Pending(dirs, leq), leq)
    ensures forall f :: f in Pending(dirs, leq) <==>
                        && (exists d :: d in dirs && d.name == f.schemaDir && f.file in d.files)
                        && (exists stem :: f.file == stem + ".sql")
    ensures multiset(Listing(dirs)) == multiset(Listing(others)) ==> Pending(dirs, leq) == Pending(others, leq)
  {
    ByFileIsOrder(leq);
    SortOrdered(Listing(dirs), ByFile(leq));
    OrderedByFile(Pending(dirs, leq), leq);
    SortMembers(Listing(dirs), ByFile(leq));
    forall f
      ensures f in Listing(dirs) <==>
              && (exists d :: d in dirs && d.name == f.schemaDir && f.file in d.files)
              && (exists stem :: f.file == stem + ".sql")
    {
      InListing(dirs, f);
      EndsInSql(f.file);
    }
    if multiset(Listing(dirs)) == multiset(Listing(others)) {
      SortUnique(Listing(dirs), Listing(others), ByFile(leq));
    }
  }

  lemma FirstSlash(f: File)
    requires '/' !in f.schemaDir
    ensures Key(f)[|f.schemaDir|] == '/' && forall i :: 0 <= i < |f.schemaDir| ==> Key(f)[i] != '/'
    ensures Key(f)[..|f.schemaDir|] == f.schemaDir && Key(f)[|f.schemaDir| + 1..] == f.file
  {
    assert forall i :: 0 <= i < |f.schemaDir| ==> Key(f)[i] == f.schemaDir[i];
  }

  /** Different files have different keys, as no directory name holds a slash. */
  lemma KeyTellsFiles(a: File, b: File)
    requires '/' !in a.schemaDir && '/' !in b.schemaDir && Key(a) == Key(b)
    ensures a == b
  {
    FirstSlash(a);
    FirstSlash(b);
    assert a.schemaDir == Key(a)[..|a.schemaDir|] && b.schemaDir == Key(b)[..|b.schemaDir|];
    assert a.file == Key(a)[|a.schemaDir| + 1..] && b.file == Key(b)[|b.schemaDir| + 1..];
  }

  /** What a file system guarantees of the directories under the migrations root. */
  ghost predicate Tree(dirs: seq<Dir>) {
    && (forall i :: 0 <= i < |dirs| ==> '/' !in dirs[i].name && Distinct(dirs[i].files))
    && (forall i, j :: 0 <= i < j < |dirs| ==> dirs[i].name != dirs[j].name)
  }

  lemma {:induction false} FilesOfDistinct(dir: string, files: seq<string>)
    requires Distinct(files)
    ensures Distinct(FilesOf(dir, files))
  {
    if files != [] {
      FilesOfDistinct(dir, files[1..]);
      InFilesOf(dir, files[1..], File(dir, files[0]));
      assert File(dir, files[0]) !in FilesOf(dir, files[1..]);
    }
  }

  lemma {:induction false} ListingDistinct(dirs: seq<Dir>)
    requires Tree(dirs)
    ensures Distinct(Listing(dirs))
  {
    if dirs != [] {
      var here, rest := FilesOf(dirs[0].name, dirs[0].files), Listing(dirs[1..]);
      FilesOfDistinct(dirs[0].name, dirs[0].files);
      ListingDistinct(dirs[1..]);
      forall f | f in here
        ensures f !in rest
      {
        InFilesOf(dirs[0].name, dirs[0].files, f);
        InListing(dirs[1..], f);
      }
      DistinctBoth(here, rest);
    }
  }

  function Keys(files: seq<File>): (keys: seq<string>)
    ensures |keys| == |files| && forall i :: 0 <= i < |files| ==> keys[i] == Key(files[i])
  {
    seq(|files|, i requires 0 <= i < |files| => Key(files[i]))
  }

  lemma PendingKeysDistinct(dirs: seq<Dir>, leq: Comparison)
    requires Tree(dirs)
    ensures Distinct(Keys(Pending(dirs, leq)))
  {
    var files := Pending(dirs, leq);
    ListingDistinct(dirs);
    SortKeepsDistinct(Listing(dirs), ByFile(leq));
    SortMembers(Listing(dirs), ByFile(leq));
    forall i, j | 0 <= i < j < |files|
      ensures Key(files[i]) != Key(files[j])
    {
      assert files[i] in files && files[j] in files && files[i] != files[j];
      InListing(dirs, files[i]);
      InListing(dirs, files[j]);
      if Key(files[i]) == Key(files[j]) {
        KeyTellsFiles(files[i], files[j]);
      }
    }
  }

  // ----- The database

  /** The migrations whose statements took effect, in order, and the rows of `schema_migrations`. */
  datatype Db = Db(executed: seq<string>, recorded: set<string>)

  const EMPTY := Db([], {})

  function Apply(db: Db, key: string): Db {
    Db(db.executed + [key], db.recorded + {key})
  }

  class Database {
    var committed: Db
    var transaction: Option<Db>

    constructor ()
      ensures committed == EMPTY && transaction == None
    {
      committed, transaction := EMPTY, None;
    }

    method Begin()
      requires transaction == None
      modifies this
      ensures committed == old(committed) && transaction == Some(committed)
    {
      transaction := Some(committed);
    }

    /** The statements of a migration. */
    method Execute(key: string)
      requires transaction.Some?
      modifies this
      ensures committed == old(committed)
      ensures transaction == Some(old(transaction).value.(executed := old(transaction).value.executed + [key]))
    {
      transaction := Some(transaction.value.(executed := transaction.value.executed + [key]));
    }

    /** Adds a row; the table's primary key refuses a row that is there already. */
    method Record(key: string) returns (ok: bool)
      requires transaction.Some?
      modifies this
      ensures committed == old(committed)
      ensures ok == (key !in old(transaction).value.recorded)
      ensures transaction
           == if ok then Some(old(transaction).value.(recorded := old(transaction).value.recorded + {key}))
              else old(transaction)
    {
      ok := key !in transaction.value.recorded;
      if ok {
        transaction := Some(transaction.value.(recorded := transaction.value.recorded + {key}));
      }
    }

    method Commit()
      requires transaction.Some?
      modifies this
      ensures committed == old(transaction).value && transaction == None
    {
      committed, transaction := transaction.value, None;
    }

    /** Also what the server does of itself to the transaction of a client that is gone. */
    method Rollback()
      modifies this
      ensures committed == old(committed) && transaction == None
    {
      transaction := None;
    }
  }

  // ----- A run

  datatype Statement = Check | Connect | Read | Begin | Execute | Record | Commit

  /** How a run fares at a file: nothing happens to it, it breaks off at a statement that has no
      effect, by an error or a crash, or it is cut off after its COMMIT took effect. */
  datatype Fate = Smooth | Breaks(at: Statement) | CutOff

  datatype Outcome = Outcome(db: Db, applied: nat, skipped: nat, finished: bool)

  function RunOn(from: Outcome, pending: seq<string>, fates: seq<Fate>): Outcome
    requires |fates| == |pending|
    decreases |pending|
  {
    if pending == [] then from.(finished := true)
    else if fates[0] == Breaks(Check) then from
    else if pending[0] in from.db.recorded then RunOn(from.(skipped := from.skipped + 1), pending[1..], fates[1..])
    else
      match fates[0]
      case Breaks(_) => from
      case CutOff => from.(db := Apply(from.db, pending[0]))
      case Smooth =>
        RunOn(from.(db := Apply(from.db, pending[0]), applied := from.applied + 1), pending[1..], fates[1..])
  }

  function RunOf(db: Db, pending: seq<string>, fates: seq<Fate>): Outcome
    requires |fates| == |pending|
  {
    RunOn(Outcome(db, 0, 0, false), pending, fates)
  }

  /** BEGIN to COMMIT for one file, rolled back wherever it fails; `ok` is what the run is told. */
  method ApplyFile(db: Database, key: string, fate: Fate) returns (ok: bool)
    requires db.transaction == None && key !in db.committed.recorded
    modifies db
    ensures db.transaction == None && ok == fate.Smooth?
    ensures db.committed == if fate.Breaks? then old(db.committed) else Apply(old(db.committed), key)
  {
    if fate.Breaks? && fate.at !in {Execute, Record, Commit} {
      return false;
    }
    db.Begin();
    ok := fate != Breaks(Execute);
    if ok {
      db.Execute(key);
      ok := fate != Breaks(Record);
    }
    if ok {
      ok := db.Record(key);
    }
    ok := ok && fate != Breaks(Commit);
    if ok {
      db.Commit();
      ok := fate != CutOff;
    }
    if !ok {
      db.Rollback();
    }
  }

  /** `main`, from the sorted list on. */
  method RunPending(db: Database, pending: seq<string>, fates: seq<Fate>)
    returns (applied: nat, skipped: nat, finished: bool)
    requires |fates| == |pending| && db.transaction == None
    modifies db
    ensures db.transaction == None
    ensures Outcome(db.committed, applied, skipped, finished) == RunOf(old(db.committed), pending, fates)
  {
    applied, skipped, finished := 0, 0, false;
    for i := 0 to |pending|
      invariant db.transaction == None
      invariant RunOf(old(db.committed), pending, fates)
             == RunOn(Outcome(db.committed, applied, skipped, false), pending[i..], fates[i..])
    {
      if fates[i] == Breaks(Check) {
        return;
      }
      if pending[i] in db.committed.recorded {
        skipped := skipped + 1;
      } else {
        var ok := ApplyFile(db, pending[i], fates[i]);
        if !ok {
          return;
        }
        applied := applied + 1;
      }
    }
    finished := true;
  }

  // ----- One run

  /** What took effect is what is recorded, and nothing took effect twice. */
  ghost predicate Good(db: Db) {
    Distinct(db.executed) && forall k :: k in db.executed <==> k in db.recorded
  }

  lemma ApplyKeepsGood(db: Db, key: string)
    requires Good(db) && key !in db.recorded
    ensures Good(Apply(db, key))
  {
    assert key !in db.executed;
  }

  function Unrecorded(db: Db): string -> bool {
    (k: string) => k !in db.recorded
  }

  /** How far a run came: it applied, in order, exactly those of the first `n` that were not
      recorded before. */
  ghost predicate Reached(from: Outcome, to: Outcome, pending: seq<string>, n: nat) {
    && n <= |pending|
    && to.db.executed == from.db.executed + Filter(pending[..n], Unrecorded(from.db))
    && (to.finished ==>
          && n == |pending|
          && to.applied == from.applied + |Filter(pending, Unrecorded(from.db))|
          && to.applied + to.skipped == from.applied + from.skipped + |pending|)
  }

  lemma {:induction false} FilterAfterApply(keys: seq<string>, db: Db, key: string)
    requires key !in keys
    ensures Filter(keys, Unrecorded(Apply(db, key))) == Filter(keys, Unrecorded(db))
  {
    if keys != [] {
      assert key != keys[0] && key !in keys[1..];
      FilterAfterApply(keys[1..], db, key);
    }
  }

  lemma {:induction false} RunKeepsGood(from: Outcome, pending: seq<string>, fates: seq<Fate>)
    requires |fates| == |pending| && Good(from.db)
    ensures Good(RunOn(from, pending, fates).db)
    decreases |pending|
  {
    if pending != [] && fates[0] != Breaks(Check) {
      if pending[0] in from.db.recorded {
        RunKeepsGood(from.(skipped := from.skipped + 1), pending[1..], fates[1..]);
      } else if !fates[0].Breaks? {
        ApplyKeepsGood(from.db, pending[0]);
        if fates[0] == Smooth {
          RunKeepsGood(from.(db := Apply(from.db, pending[0]), applied := from.applied + 1), pending[1..], fates[1..]);
        }
      }
    }
  }

  lemma {:induction false} SmoothRunFinishes(from: Outcome, pending: seq<string>, fates: seq<Fate>)
    requires |fates| == |pending| && forall i :: 0 <= i < |fates| ==> fates[i] == Smooth
    ensures RunOn(from, pending, fates).finished
    decreases |pending|
  {
    if pending != [] {
      var key := pending[0];
      SmoothRunFinishes(from.(skipped := from.skipped + 1), pending[1..], fates[1..]);
      SmoothRunFinishes(from.(db := Apply(from.db, key), applied := from.applied + 1), pending[1..], fates[1..]);
    }
  }

  lemma SkipReaches(from: Outcome, to: Outcome, pending: seq<string>, n: nat)
    requires pending != [] && pending[0] in from.db.recorded
    requires Reached(from.(skipped := from.skipped + 1), to, pending[1..], n)
    ensures Reached(from, to, pending, n + 1)
  {
    assert pending[..n + 1][1..] == pending[1..][..n];
  }

  lemma ApplyReaches(from: Outcome, to: Outcome, pending: seq<string>, n: nat)
    requires pending != [] && pending[0] !in from.db.recorded && pending[0] !in pending[1..]
    requires Reached(from.(db := Apply(from.db, pending[0]), applied := from.applied + 1), to, pending[1..], n)
    ensures Reached(from, to, pending, n + 1)
  {
    FilterAfterApply(pending[1..], from.db, pending[0]);
    FilterAfterApply(pending[1..][..n], from.db, pending[0]);
    assert pending[..n + 1][1..] == pending[1..][..n];
  }

  /** Where a run breaks off: at a check, or at a file that was not recorded and does not go
      smoothly. */
  predicate BreaksOff(recorded: set<string>, key: string, fate: Fate) {
    fate == Breaks(Check) || (key !in recorded && fate != Smooth)
  }

  /** The first file at which a run breaks off, or the end of its list. */
  function Stop(recorded: set<string>, pending: seq<string>, fates: seq<Fate>): nat
    requires |fates| == |pending|
  {
    if pending == [] || BreaksOff(recorded, pending[0], fates[0]) then 0
    else 1 + Stop(recorded, pending[1..], fates[1..])
  }

  lemma {:induction false} StopIsFirst(recorded: set<string>, pending: seq<string>, fates: seq<Fate>)
    requires |fates| == |pending|
    ensures var stop := Stop(recorded, pending, fates);
            && stop <= |pending|
            && (forall i :: 0 <= i < stop ==> !BreaksOff(recorded, pending[i], fates[i]))
            && (stop < |pending| ==> BreaksOff(recorded, pending[stop], fates[stop]))
  {
    if pending != [] && !BreaksOff(recorded, pending[0], fates[0]) {
      StopIsFirst(recorded, pending[1..], fates[1..]);
    }
  }

  lemma {:induction false} StopAfterApply(recorded: set<string>, key: string, pending: seq<string>, fates: seq<Fate>)
    requires |fates| == |pending| && key !in pending
    ensures Stop(recorded + {key}, pending, fates) == Stop(recorded, pending, fates)
  {
    if pending != [] {
      assert pending[0] != key && key !in pending[1..];
      StopAfterApply(recorded, key, pending[1..], fates[1..]);
    }
  }

  /** The files a run has dealt with for good: those before it breaks off, and that one too when its
      COMMIT took effect. */
  function DealtWith(recorded: set<string>, pending: seq<string>, fates: seq<Fate>): nat
    requires |fates| == |pending|
  {
    StopIsFirst(recorded, pending, fates);
    var stop := Stop(recorded, pending, fates);
    if stop < |pending| && fates[stop] == CutOff then stop + 1 else stop
  }

  lemma DealtWithOneMore(recorded: set<string>, pending: seq<string>, fates: seq<Fate>)
    requires |fates| == |pending| != 0 && !BreaksOff(recorded, pending[0], fates[0])
    ensures DealtWith(recorded, pending, fates) == DealtWith(recorded, pending[1..], fates[1..]) + 1
  {
  }

  /** Every run applies, in order, exactly those of the files it deals with that were not recorded;
      it finishes exactly when it breaks off nowhere. */
  lemma {:induction false} RunReaches(from: Outcome, pending: seq<string>, fates: seq<Fate>)
    requires |fates| == |pending| && Distinct(pending) && !from.finished
    ensures Reached(from, RunOn(from, pending, fates), pending, DealtWith(from.db.recorded, pending, fates))
    ensures RunOn(from, pending, fates).finished <==> Stop(from.db.recorded, pending, fates) == |pending|
    decreases |pending|
  {
    var recorded := from.db.recorded;
    if pending != [] && !BreaksOff(recorded, pending[0], fates[0]) {
      var key, rest := pending[0], pending[1..];
      var to := RunOn(from, pending, fates);
      DealtWithOneMore(recorded, pending, fates);
      if key in recorded {
        RunReaches(from.(skipped := from.skipped + 1), rest, fates[1..]);
        SkipReaches(from, to, pending, DealtWith(recorded, rest, fates[1..]));
      } else {
        RunReaches(from.(db := Apply(from.db, key), applied := from.applied + 1), rest, fates[1..]);
        StopAfterApply(recorded, key, rest, fates[1..]);
        ApplyReaches(from, to, pending, DealtWith(recorded, rest, fates[1..]));
      }
    } else if pending != [] && fates[0] == CutOff {
      assert Filter(pending[..1][1..], Unrecorded(from.db)) == [];
    }
  }

  // ----- Any sequence of runs

  datatype Attempt = Attempt(pending: seq<string>, fates: seq<Fate>)

  predicate WellFormed(attempts: seq<Attempt>) {
    forall i :: 0 <= i < |attempts| ==> |attempts[i].fates| == |attempts[i].pending|
  }

  /** The database after one run after another. */
  function History(attempts: seq<Attempt>): Db
    requires WellFormed(attempts)
  {
    if attempts == [] then EMPTY
    else
      var last := attempts[|attempts| - 1];
      RunOf(History(attempts[..|attempts| - 1]), last.pending, last.fates).db
  }

  /** Whatever the lists of files and wherever the runs break off, what took effect is what is
      recorded, each migration once. */
  lemma {:induction false} EachAtMostOnce(attempts: seq<Attempt>)
    requires WellFormed(attempts)
    ensures Good(History(attempts))
  {
    if attempts != [] {
      var before, last := attempts[..|attempts| - 1], attempts[|attempts| - 1];
      EachAtMostOnce(before);
      RunKeepsGood(Outcome(History(before), 0, 0, false), last.pending, last.fates);
    }
  }

  lemma {:induction false} FilterOfPrefix(p: seq<string>, n: nat, m: nat, db: Db)
    requires m <= |p| && n <= |p| && Distinct(p)
    requires forall k :: k in db.recorded <==> k in p[..m]
    ensures Filter(p[..n], Unrecorded(db)) == if n <= m then [] else p[m..n]
    decreases n
  {
    if n > 0 {
      FilterOfPrefix(p, n - 1, m, db);
      FilterOfBoth(p[..n - 1], [p[n - 1]], Unrecorded(db));
      assert p[..n] == p[..n - 1] + [p[n - 1]];
      assert p[n - 1] in p[..m] <==> n <= m by {
        if n <= m {
          assert p[..m][n - 1] == p[n - 1];
        }
      }
    }
  }

  /** With a fixed list of files, what took effect is always a first part of that list, in its
      order. */
  lemma {:induction false} FixedFilesInOrder(attempts: seq<Attempt>, p: seq<string>)
    requires WellFormed(attempts) && Distinct(p)
    requires forall i :: 0 <= i < |attempts| ==> attempts[i].pending == p
    ensures var db := History(attempts); |db.executed| <= |p| && db.executed == p[..|db.executed|]
  {
    if attempts != [] {
      var before, last := attempts[..|attempts| - 1], attempts[|attempts| - 1];
      FixedFilesInOrder(before, p);
      EachAtMostOnce(before);
      var db := History(before);
      RunReaches(Outcome(db, 0, 0, false), p, last.fates);
      var n := DealtWith(db.recorded, p, last.fates);
      FilterOfPrefix(p, n, |db.executed|, db);
    }
  }

  /** The runs of one tree of files execute it in the order of file name and then schema, from the
      first on and without a gap. */
  lemma TreeInOrder(attempts: seq<Attempt>, dirs: seq<Dir>, leq: Comparison) returns (n: nat)
    requires WellFormed(attempts) && Tree(dirs) && TotalOrder(leq)
    requires forall i :: 0 <= i < |attempts| ==> attempts[i].pending == Keys(Pending(dirs, leq))
    ensures n <= |Pending(dirs, leq)| && History(attempts).executed == Keys(Pending(dirs, leq)[..n])
    ensures ByNameThenSchema(Pending(dirs, leq)[..n], leq)
  {
    PendingKeysDistinct(dirs, leq);
    FixedFilesInOrder(attempts, Keys(Pending(dirs, leq)));
    PendingInOrder(dirs, dirs, leq);
    n := |History(attempts).executed|;
  }

  /** A run that finished has every file of its list recorded, and what it applied comes after what
      was there. */
  lemma FinishedRunRecords(db: Db, p: seq<string>, fates: seq<Fate>)
    requires |fates| == |p| && Good(db) && Distinct(p) && RunOf(db, p, fates).finished
    ensures var done := RunOf(db, p, fates);
            && done.db.executed == db.executed + Filter(p, Unrecorded(db))
            && (forall k :: k in done.db.recorded <==> k in db.recorded || k in p)
            && done.applied == |Filter(p, Unrecorded(db))| && done.applied + done.skipped == |p|
  {
    var from := Outcome(db, 0, 0, false);
    RunReaches(from, p, fates);
    var n := DealtWith(db.recorded, p, fates);
    RunKeepsGood(from, p, fates);
    assert p[..n] == p;
    FilterMembers(p, Unrecorded(db));
    forall k
      ensures k in RunOf(db, p, fates).db.recorded <==> k in db.recorded || k in p
    {
      assert k in RunOf(db, p, fates).db.executed <==> k in db.executed || k in Filter(p, Unrecorded(db));
    }
  }

  lemma {:induction false} SkipsAll(from: Outcome, pending: seq<string>, fates: seq<Fate>)
    requires |fates| == |pending| && !from.finished && forall k :: k in pending ==> k in from.db.recorded
    ensures var to := RunOn(from, pending, fates);
            && to.db == from.db && to.applied == from.applied
            && (to.finished <==> forall i :: 0 <= i < |fates| ==> fates[i] != Breaks(Check))
            && (to.finished ==> to.skipped == from.skipped + |pending|)
    decreases |pending|
  {
    if pending != [] && fates[0] != Breaks(Check) {
      SkipsAll(from.(skipped := from.skipped + 1), pending[1..], fates[1..]);
      assert forall i :: 1 <= i < |fates| ==> fates[i] == fates[1..][i - 1];
    }
  }

  /** A run that finished leaves nothing to do: a later one, over the same files or fewer, applies
      none and changes nothing, and skips them all unless a check breaks off. */
  lemma RerunAppliesNothing(db: Db, p: seq<string>, fates: seq<Fate>, again: seq<string>, fatesAgain: seq<Fate>)
    requires |fates| == |p| && |fatesAgain| == |again| && Good(db) && Distinct(p)
    requires RunOf(db, p, fates).finished && forall k :: k in again ==> k in p
    ensures var done := RunOf(db, p, fates).db;
            var rerun := RunOf(done, again, fatesAgain);
            && rerun.db == done && rerun.applied == 0
            && (rerun.finished <==> forall i :: 0 <= i < |fatesAgain| ==> fatesAgain[i] != Breaks(Check))
            && (rerun.finished ==> rerun.skipped == |again|)
  {
    FinishedRunRecords(db, p, fates);
    SkipsAll(Outcome(RunOf(db, p, fates).db, 0, 0, false), again, fatesAgain);
  }

  /** However the runs before it broke off, one undisturbed run of a fixed list finishes, and leaves
      exactly that list executed, in its order. */
  lemma SmoothRunCompletes(attempts: seq<Attempt>, p: seq<string>, fates: seq<Fate>)
    requires WellFormed(attempts) && Distinct(p) && |fates| == |p|
    requires forall i :: 0 <= i < |attempts| ==> attempts[i].pending == p
    requires forall i :: 0 <= i < |fates| ==> fates[i] == Smooth
    ensures var done := RunOf(History(attempts), p, fates);
            && done.finished && done.db.executed == p
            && done.skipped == |History(attempts).executed| && done.applied == |p| - done.skipped
  {
    var db := History(attempts);
    SmoothRunFinishes(Outcome(db, 0, 0, false), p, fates);
    EachAtMostOnce(attempts);
    FixedFilesInOrder(attempts, p);
    FinishedRunRecords(db, p, fates);
    FilterOfPrefix(p, |p|, |db.executed|, db);
    assert p[..|p|] == p && p[..|db.executed|] + p[|db.executed|..] == p;
  }
}
