/** The migration runner: files applied one transaction each, a journal of names and checksums, and runs
    that may break off anywhere. */
module Migrations {
  import opened Prelude

  datatype File = File(name: string, contents: string)

  /** The schema, the journal rows of all namespaces, and (as history) the files whose transactions
      have committed, in order. */
  datatype Database<S> = Database(schema: S, journal: map<(string, string), string>, applied: seq<File>)

  /** What the runner is given: how SQL acts on a schema, if it succeeds, and a checksum. */
  datatype Env<!S> = Env(exec: (string, S) -> Option<S>, checksum: string -> string, namespace: string)

  datatype MigrationError =
    | BadNamespace
    | NoFiles
    | Modified(name: string)
    | SqlFailed(name: string)
    | Interrupted

  datatype Outcome<S> = Outcome(db: Database<S>, error: Option<MigrationError>)

  ghost predicate DistinctNames(files: seq<File>) {
    forall i, j :: 0 <= i < j < |files| ==> files[i].name != files[j].name
  }

  predicate Journaled<S>(env: Env<S>, db: Database<S>, name: string) {
    (env.namespace, name) in db.journal
  }

  /** An applied file whose contents are no longer what was applied. */
  predicate Edited<S>(env: Env<S>, db: Database<S>, file: File) {
    Journaled(env, db, file.name) && db.journal[(env.namespace, file.name)] != env.checksum(file.contents)
  }

  function Committed<S>(env: Env<S>, db: Database<S>, file: File, schema: S): Database<S> {
    Database(schema, db.journal[(env.namespace, file.name) := env.checksum(file.contents)], db.applied + [file])
  }

  /** One turn of the loop, uninterrupted. */
  function ApplyFile<S>(env: Env<S>, db: Database<S>, file: File): Outcome<S> {
    if Edited(env, db, file) then Outcome(db, Some(Modified(file.name)))
    else if Journaled(env, db, file.name) then Outcome(db, None)
    else match env.exec(file.contents, db.schema)
         case None => Outcome(db, Some(SqlFailed(file.name)))
         case Some(schema) => Outcome(Committed(env, db, file, schema), None)
  }

  /** An uninterrupted run over the files. */
  function Migrate<S>(env: Env<S>, db: Database<S>, files: seq<File>): Outcome<S>
    decreases |files|
  {
    if files == [] then Outcome(db, None)
    else
      var first := ApplyFile(env, db, files[0]);
      if first.error.Some? then first else Migrate(env, first.db, files[1..])
  }

  /** A run that broke off, or not: some prefix of the files took effect, and nothing else. */
  ghost predicate BrokeOff<S(!new)>(env: Env<S>, db: Database<S>, files: seq<File>, db': Database<S>) {
    exists k :: ReachedBy(env, db, files, k, db')
  }

  ghost predicate ReachedBy<S(!new)>(env: Env<S>, db: Database<S>, files: seq<File>, k: int, db': Database<S>) {
    0 <= k <= |files| && Migrate(env, db, files[..k]) == Outcome(db', None)
  }

  // ----- what an uninterrupted run does -----

  /** The files the journal does not know. */
  function Unapplied<S>(env: Env<S>, db: Database<S>, files: seq<File>): seq<File> {
    if files == [] then []
    else (if Journaled(env, db, files[0].name) then [] else [files[0]]) + Unapplied(env, db, files[1..])
  }

  function ExecAll<S>(env: Env<S>, schema: S, files: seq<File>): Option<S> {
    if files == [] then Some(schema)
    else match env.exec(files[0].contents, schema)
         case None => None
         case Some(next) => ExecAll(env, next, files[1..])
  }

  /** Journal entries of files other than the one applied stay. */
  lemma {:induction false} OthersUnapplied<S>(env: Env<S>, db: Database<S>, file: File, schema: S, files: seq<File>)
    requires forall i :: 0 <= i < |files| ==> files[i].name != file.name
    ensures Unapplied(env, Committed(env, db, file, schema), files) == Unapplied(env, db, files)
  {
    if files != [] { OthersUnapplied(env, db, file, schema, files[1..]); }
  }

  /** A successful run executes exactly the files the journal does not know, once each and in order. */
  lemma {:induction false} SuccessAppliesUnapplied<S>(env: Env<S>, db: Database<S>, files: seq<File>)
    requires DistinctNames(files) && Migrate(env, db, files).error.None?
    ensures Migrate(env, db, files).db.applied == db.applied + Unapplied(env, db, files)
    decreases |files|
  {
    if files != [] {
      var first, rest := ApplyFile(env, db, files[0]).db, files[1..];
      RestDistinct(files);
      SuccessAppliesUnapplied(env, first, rest);
      if !Journaled(env, db, files[0].name) {
        UnappliedFirst(env, db, files);
        Assoc(db.applied, [files[0]], Unapplied(env, first, rest));
      }
    }
  }

  /** Its schema is what those files make of the old one. */
  lemma {:induction false} SuccessExecutesUnapplied<S>(env: Env<S>, db: Database<S>, files: seq<File>)
    requires DistinctNames(files) && Migrate(env, db, files).error.None?
    ensures ExecAll(env, db.schema, Unapplied(env, db, files)) == Some(Migrate(env, db, files).db.schema)
    decreases |files|
  {
    if files != [] {
      RestDistinct(files);
      SuccessExecutesUnapplied(env, ApplyFile(env, db, files[0]).db, files[1..]);
      if Journaled(env, db, files[0].name) {
        assert Unapplied(env, db, files) == Unapplied(env, db, files[1..]);
      } else {
        UnappliedFirst(env, db, files);
      }
    }
  }

  lemma RestDistinct(files: seq<File>)
    requires DistinctNames(files) && files != []
    ensures DistinctNames(files[1..])
  {
    forall i, j | 0 <= i < j < |files[1..]| ensures files[1..][i].name != files[1..][j].name {
      assert files[i + 1].name != files[j + 1].name;
    }
  }

  lemma UnappliedFirst<S>(env: Env<S>, db: Database<S>, files: seq<File>)
    requires DistinctNames(files) && files != []
    requires !Journaled(env, db, files[0].name) && env.exec(files[0].contents, db.schema).Some?
    ensures var first, rest := ApplyFile(env, db, files[0]).db, Unapplied(env, ApplyFile(env, db, files[0]).db, files[1..]);
            && Unapplied(env, db, files) == [files[0]] + rest
            && ExecAll(env, db.schema, Unapplied(env, db, files)) == ExecAll(env, first.schema, rest)
  {
    OthersUnapplied(env, db, files[0], env.exec(files[0].contents, db.schema).value, files[1..]);
    assert ([files[0]] + Unapplied(env, db, files[1..]))[1..] == Unapplied(env, db, files[1..]);
  }

  /** A successful run found none of its files edited. */
  lemma {:induction false} SuccessFindsNoneEdited<S>(env: Env<S>, db: Database<S>, files: seq<File>)
    requires DistinctNames(files) && Migrate(env, db, files).error.None?
    ensures forall i :: 0 <= i < |files| ==> !Edited(env, db, files[i])
    decreases |files|
  {
    if files != [] {
      SuccessFindsNoneEdited(env, ApplyFile(env, db, files[0]).db, files[1..]);
      OthersStayEdited(env, db, files);
    }
  }

  lemma OthersStayEdited<S>(env: Env<S>, db: Database<S>, files: seq<File>)
    requires DistinctNames(files) && files != [] && ApplyFile(env, db, files[0]).error.None?
    requires forall i :: 0 <= i < |files| - 1 ==> !Edited(env, ApplyFile(env, db, files[0]).db, files[1..][i])
    ensures forall i :: 0 <= i < |files| ==> !Edited(env, db, files[i])
  {
    forall i | 0 <= i < |files| ensures !Edited(env, db, files[i]) {
      if i > 0 { assert !Edited(env, ApplyFile(env, db, files[0]).db, files[1..][i - 1]); }
    }
  }

  // ----- resuming -----

  lemma {:induction false} MigrateSplit<S>(env: Env<S>, db: Database<S>, a: seq<File>, b: seq<File>)
    requires Migrate(env, db, a).error.None?
    ensures Migrate(env, db, a + b) == Migrate(env, Migrate(env, db, a).db, b)
    decreases |a|
  {
    if a == [] {
      assert a + b == b;
    } else {
      assert (a + b)[1..] == a[1..] + b;
      MigrateSplit(env, ApplyFile(env, db, a[0]).db, a[1..], b);
    }
  }

  /** The journal agrees with a file that is skipped. */
  predicate UpToDate<S>(env: Env<S>, db: Database<S>, file: File) {
    Journaled(env, db, file.name) && !Edited(env, db, file)
  }

  /** A run never changes or removes a journal row. */
  lemma {:induction false} JournalGrows<S>(env: Env<S>, db: Database<S>, files: seq<File>)
    ensures forall key :: key in db.journal ==>
              key in Migrate(env, db, files).db.journal && Migrate(env, db, files).db.journal[key] == db.journal[key]
    decreases |files|
  {
    if files != [] && ApplyFile(env, db, files[0]).error.None? {
      JournalGrows(env, ApplyFile(env, db, files[0]).db, files[1..]);
    }
  }

  lemma {:induction false} SuccessUpToDate<S>(env: Env<S>, db: Database<S>, files: seq<File>)
    requires Migrate(env, db, files).error.None?
    ensures forall i :: 0 <= i < |files| ==> UpToDate(env, Migrate(env, db, files).db, files[i])
    decreases |files|
  {
    if files != [] {
      var first := ApplyFile(env, db, files[0]);
      SuccessUpToDate(env, first.db, files[1..]);
      JournalGrows(env, first.db, files[1..]);
      assert UpToDate(env, first.db, files[0]);
      forall i | 0 <= i < |files| ensures UpToDate(env, Migrate(env, db, files).db, files[i]) {
        if i > 0 { assert files[i] == files[1..][i - 1]; }
      }
    }
  }

  lemma {:induction false} SkipsUpToDate<S>(env: Env<S>, db: Database<S>, files: seq<File>)
    requires forall i :: 0 <= i < |files| ==> UpToDate(env, db, files[i])
    ensures Migrate(env, db, files) == Outcome(db, None)
  {
    if files != [] {
      assert UpToDate(env, db, files[0]);
      SkipsUpToDate(env, db, files[1..]);
    }
  }

  /** Resuming: after a run that broke off anywhere, the next run ends as the first would have. */
  lemma ResumeSame<S>(env: Env<S>, db: Database<S>, files: seq<File>, k: nat)
    requires k <= |files| && Migrate(env, db, files[..k]).error.None?
    ensures Migrate(env, Migrate(env, db, files[..k]).db, files) == Migrate(env, db, files)
  {
    var mid := Migrate(env, db, files[..k]).db;
    assert files == files[..k] + files[k..];
    MigrateSplit(env, db, files[..k], files[k..]);
    SuccessUpToDate(env, db, files[..k]);
    SkipsUpToDate(env, mid, files[..k]);
    MigrateSplit(env, mid, files[..k], files[k..]);
  }

  /** Any number of broken runs and then a whole one: the same schema, journal and applied files as one
      uninterrupted run. */
  lemma {:induction false} ResumableRuns<S(!new)>(env: Env<S>, dbs: seq<Database<S>>, files: seq<File>)
    requires dbs != [] && forall i :: 0 <= i < |dbs| - 1 ==> BrokeOff(env, dbs[i], files, dbs[i + 1])
    ensures Migrate(env, dbs[|dbs| - 1], files) == Migrate(env, dbs[0], files)
    decreases |dbs|
  {
    if |dbs| > 1 {
      assert BrokeOff(env, dbs[0], files, dbs[0 + 1]);
      var k :| ReachedBy(env, dbs[0], files, k, dbs[1]);
      ResumeSame(env, dbs[0], files, k);
      forall i | 0 <= i < |dbs[1..]| - 1 ensures BrokeOff(env, dbs[1..][i], files, dbs[1..][i + 1]) {
        assert BrokeOff(env, dbs[i + 1], files, dbs[i + 1 + 1]);
      }
      ResumableRuns(env, dbs[1..], files);
    }
  }

  // ----- edited files -----

  /** A run over other files leaves a file as journaled or edited as it was. */
  lemma {:induction false} OthersEdited<S>(env: Env<S>, db: Database<S>, files: seq<File>, file: File)
    requires forall i :: 0 <= i < |files| ==> files[i].name != file.name
    ensures Edited(env, Migrate(env, db, files).db, file) <==> Edited(env, db, file)
    decreases |files|
  {
    if files != [] && ApplyFile(env, db, files[0]).error.None? {
      OthersEdited(env, ApplyFile(env, db, files[0]).db, files[1..], file);
    }
  }

  /** A run that meets an edited applied file stops there: nothing from that file on is executed. */
  lemma EditedStops<S>(env: Env<S>, db: Database<S>, files: seq<File>, i: nat)
    requires DistinctNames(files) && i < |files| && Edited(env, db, files[i])
    requires Migrate(env, db, files[..i]).error.None?
    ensures Migrate(env, db, files) == Outcome(Migrate(env, db, files[..i]).db, Some(Modified(files[i].name)))
  {
    assert files == files[..i] + files[i..];
    MigrateSplit(env, db, files[..i], files[i..]);
    OthersEdited(env, db, files[..i], files[i]);
  }

  /** So one edited applied file anywhere keeps every run from succeeding. */
  lemma EditedNeverSucceeds<S>(env: Env<S>, db: Database<S>, files: seq<File>, i: nat)
    requires DistinctNames(files) && i < |files| && Edited(env, db, files[i])
    ensures Migrate(env, db, files).error.Some?
  {
    if Migrate(env, db, files).error.None? { SuccessFindsNoneEdited(env, db, files); }
  }

  // ----- the runner -----

  predicate NamespaceChar(c: char) { 'a' <= c <= 'z' || '0' <= c <= '9' }

  predicate ValidNamespace(namespace: string) {
    && 1 <= |namespace| <= 63 && NamespaceChar(namespace[0])
    && forall i :: 0 <= i < |namespace| ==> NamespaceChar(namespace[i]) || namespace[i] == '_' || namespace[i] == '-'
  }

  /** What befalls the turn for one file: nothing; a crash or a refused statement before the commit; or a
      commit whose reply is lost. */
  datatype Fault = NoFault | BeforeCommit | ReplyLost

  // ----- several runners -----

  /** Any number of runners over one directory: who holds the advisory lock and how far it has come, and
      who has succeeded. */
  datatype Race<S> = Race(db: Database<S>, holder: Option<nat>, position: nat, done: set<nat>)

  /** `Leave` is a crash, or an error outside a file's turn: the session ends and the lock is free. */
  datatype Move = Acquire(runner: nat) | Turn(fault: Fault) | Finish | Leave

  predicate CanMove<S>(files: seq<File>, r: Race<S>, move: Move) {
    match move
    case Acquire(_) => r.holder.None?
    case Turn(_) => r.holder.Some? && r.position < |files|
    case Finish => r.holder.Some? && r.position == |files|
    case Leave => r.holder.Some?
  }

  function AfterTurn<S>(env: Env<S>, files: seq<File>, r: Race<S>, fault: Fault): Race<S>
    requires r.position < |files|
  {
    var file := files[r.position];
    var turn := ApplyFile(env, r.db, file);
    if turn.error.Some? then r.(holder := None)
    else if Journaled(env, r.db, file.name) then r.(position := r.position + 1)
    else match fault
         case BeforeCommit => r.(holder := None)
         case ReplyLost => r.(db := turn.db, holder := None)
         case NoFault => r.(db := turn.db, position := r.position + 1)
  }

  function AfterMove<S>(env: Env<S>, files: seq<File>, r: Race<S>, move: Move): Race<S>
    requires CanMove(files, r, move)
  {
    match move
    case Acquire(runner) => r.(holder := Some(runner), position := 0)
    case Turn(fault) => AfterTurn(env, files, r, fault)
    case Finish => r.(holder := None, done := r.done + {r.holder.value})
    case Leave => r.(holder := None)
  }

  ghost predicate RaceRun<S(!new)>(env: Env<S>, files: seq<File>, r: Race<S>, moves: seq<Move>, r': Race<S>)
    decreases |moves|
  {
    if moves == [] then r == r'
    else CanMove(files, r, moves[0]) && RaceRun(env, files, AfterMove(env, files, r, moves[0]), moves[1..], r')
  }

  ghost predicate RaceOk<S(!new)>(env: Env<S>, files: seq<File>, db0: Database<S>, r: Race<S>) {
    && BrokeOff(env, db0, files, r.db)
    && (r.holder.Some? ==> r.position <= |files| && forall i :: 0 <= i < r.position ==> UpToDate(env, r.db, files[i]))
    && (r.done != {} ==> forall i :: 0 <= i < |files| ==> UpToDate(env, r.db, files[i]))
  }

  /** A prefix that is up to date has been reached. */
  lemma ReachedUpTo<S(!new)>(env: Env<S>, db0: Database<S>, files: seq<File>, k: nat, p: nat, db: Database<S>)
    requires ReachedBy(env, db0, files, k, db) && k <= p <= |files|
    requires forall i :: 0 <= i < p ==> UpToDate(env, db, files[i])
    ensures ReachedBy(env, db0, files, p, db)
  {
    assert files[..p] == files[..k] + files[k..p];
    MigrateSplit(env, db0, files[..k], files[k..p]);
    SkipsUpToDate(env, db, files[k..p]);
  }

  /** A file that is executed lies beyond everything reached so far. */
  lemma ExecutedReaches<S(!new)>(env: Env<S>, db0: Database<S>, files: seq<File>, p: nat, db: Database<S>)
    requires BrokeOff(env, db0, files, db) && p < |files| && ApplyFile(env, db, files[p]).error.None?
    requires !Journaled(env, db, files[p].name) && forall i :: 0 <= i < p ==> UpToDate(env, db, files[i])
    ensures BrokeOff(env, db0, files, ApplyFile(env, db, files[p]).db)
  {
    var k :| ReachedBy(env, db0, files, k, db);
    SuccessUpToDate(env, db0, files[..k]);
    forall i | 0 <= i < k ensures UpToDate(env, db, files[i]) { assert files[..k][i] == files[i]; }
    ReachedUpTo(env, db0, files, k, p, db);
    assert files[..p + 1] == files[..p] + [files[p]];
    MigrateSplit(env, db0, files[..p], [files[p]]);
    assert ReachedBy(env, db0, files, p + 1, ApplyFile(env, db, files[p]).db);
  }

  lemma TurnKeeps<S(!new)>(env: Env<S>, files: seq<File>, db0: Database<S>, r: Race<S>, fault: Fault)
    requires RaceOk(env, files, db0, r) && CanMove(files, r, Turn(fault))
    ensures RaceOk(env, files, db0, AfterTurn(env, files, r, fault))
  {
    var file := files[r.position];
    if ApplyFile(env, r.db, file).error.None? && !Journaled(env, r.db, file.name) {
      ExecutedReaches(env, db0, files, r.position, r.db);
    }
  }

  lemma {:induction false} RaceKeeps<S(!new)>(env: Env<S>, files: seq<File>, db0: Database<S>, r: Race<S>, moves: seq<Move>, r': Race<S>)
    requires RaceOk(env, files, db0, r) && RaceRun(env, files, r, moves, r')
    ensures RaceOk(env, files, db0, r')
    decreases |moves|
  {
    if moves != [] {
      match moves[0] {
        case Turn(fault) => TurnKeeps(env, files, db0, r, fault);
        case _ =>
      }
      RaceKeeps(env, files, db0, AfterMove(env, files, r, moves[0]), moves[1..], r');
    }
  }

  /** Any number of runners, interleaved and broken off anywhere: the database is that of one run so far, and
      once one of them has succeeded, that of one whole uninterrupted run. */
  lemma RacingRunners<S(!new)>(env: Env<S>, files: seq<File>, db0: Database<S>, moves: seq<Move>, r: Race<S>)
    requires RaceRun(env, files, Race(db0, None, 0, {}), moves, r)
    ensures BrokeOff(env, db0, files, r.db)
    ensures r.done != {} ==> Migrate(env, db0, files) == Outcome(r.db, None)
  {
    assert ReachedBy(env, db0, files, 0, db0);
    RaceKeeps(env, files, db0, Race(db0, None, 0, {}), moves, r);
    if r.done != {} {
      var k :| ReachedBy(env, db0, files, k, r.db);
      ReachedUpTo(env, db0, files, k, |files|, r.db);
      assert files[..|files|] == files;
    }
  }

  /** Broken runs add up to one. */
  lemma BrokeOffOn<S(!new)>(env: Env<S>, db: Database<S>, db1: Database<S>, db2: Database<S>, files: seq<File>)
    requires BrokeOff(env, db, files, db1) && BrokeOff(env, db1, files, db2)
    ensures BrokeOff(env, db, files, db2)
  {
    var k :| ReachedBy(env, db, files, k, db1);
    var n :| ReachedBy(env, db1, files, n, db2);
    SuccessUpToDate(env, db, files[..k]);
    if n <= k {
      forall i | 0 <= i < n ensures UpToDate(env, db1, files[..n][i]) { assert files[..n][i] == files[..k][i]; }
      SkipsUpToDate(env, db1, files[..n]);
      assert ReachedBy(env, db, files, k, db2);
    } else {
      assert files[..n][..k] == files[..k];
      ResumeSame(env, db, files[..n], k);
      assert ReachedBy(env, db, files, n, db2);
    }
  }

  class MigrationRunner<S(!new)> {
    const env: Env<S>
    var db: Database<S>
    var lockHeld: bool

    constructor (env: Env<S>, db: Database<S>)
      ensures this.env == env && this.db == db && !lockHeld
    {
      this.env, this.db, lockHeld := env, db, false;
    }

    /** One file: skipped, refused, or executed and journaled in one transaction. */
    method ApplyOne(file: File, fault: Fault) returns (error: Option<MigrationError>)
      requires lockHeld
      modifies this`db
      ensures error != Some(BadNamespace) && error != Some(NoFiles) && (error == Some(Interrupted) ==> !fault.NoFault?)
      ensures error.None? ==> Outcome(db, None) == ApplyFile(env, old(db), file)
      ensures error.Some? ==> db == old(db) || (fault.ReplyLost? && Outcome(db, None) == ApplyFile(env, old(db), file))
      ensures fault.NoFault? ==> Outcome(db, error) == ApplyFile(env, old(db), file)
    {
      if (env.namespace, file.name) in db.journal {
        if db.journal[(env.namespace, file.name)] != env.checksum(file.contents) {
          return Some(Modified(file.name));
        }
        return None;
      }
      var schema := env.exec(file.contents, db.schema);
      if schema.None? {
        return Some(SqlFailed(file.name));
      }
      if fault.BeforeCommit? {
        return Some(Interrupted);
      }
      db := Committed(env, db, file, schema.value);
      return if fault.ReplyLost? then Some(Interrupted) else None;
    }

    /** The loop over the files, to its end or to the first error. */
    method ApplyAll(files: seq<File>, faults: nat -> Fault) returns (error: Option<MigrationError>)
      requires lockHeld
      modifies this`db
      ensures BrokeOff(env, old(db), files, db) && error != Some(BadNamespace) && error != Some(NoFiles)
      ensures error == Some(Interrupted) ==> exists i :: !faults(i).NoFault?
      ensures error.None? ==> Migrate(env, old(db), files) == Outcome(db, None)
      ensures (forall i :: faults(i).NoFault?) ==> Migrate(env, old(db), files) == Outcome(db, error)
    {
      for i := 0 to |files|
        invariant Migrate(env, old(db), files[..i]) == Outcome(db, None)
      {
        assert ReachedBy(env, old(db), files, i, db);
        Extend(old(db), db, files, i);
        error := ApplyOne(files[i], faults(i));
        if error.Some? {
          if faults(i).NoFault? {
            FailsAt(old(db), files, i, Outcome(db, error));
          }
          assert ReachedBy(env, old(db), files, i, db) || ReachedBy(env, old(db), files, i + 1, db);
          return;
        }
      }
      assert files[..|files|] == files;
      assert ReachedBy(env, old(db), files, |files|, db);
      return None;
    }

    lemma Extend(first: Database<S>, now: Database<S>, files: seq<File>, i: nat)
      requires i < |files| && Migrate(env, first, files[..i]) == Outcome(now, None)
      ensures Migrate(env, first, files[..i + 1]) == ApplyFile(env, now, files[i])
    {
      assert files[..i + 1] == files[..i] + [files[i]];
      MigrateSplit(env, first, files[..i], [files[i]]);
    }

    lemma FailsAt(first: Database<S>, files: seq<File>, i: nat, failed: Outcome<S>)
      requires i < |files| && Migrate(env, first, files[..i + 1]) == failed && failed.error.Some?
      requires Migrate(env, first, files[..i]).error.None?
      ensures Migrate(env, first, files) == failed
    {
      Extend(first, Migrate(env, first, files[..i]).db, files, i);
      assert files == files[..i] + files[i..];
      MigrateSplit(env, first, files[..i], files[i..]);
    }

    /** `pg_advisory_lock`: while it is waited for, other runners of the same directory may run and break off;
        callers know nothing more than this contract. Once it is held nobody else runs. */
    method AcquireLock(files: seq<File>)
      requires !lockHeld
      modifies this
      ensures lockHeld && BrokeOff(env, old(db), files, db)
    {
      assert ReachedBy(env, db, files, 0, db);
      lockHeld := true;
    }

    /** Where a run ends does not depend on the broken runs before it. */
    lemma SameEnd(first: Database<S>, now: Database<S>, files: seq<File>)
      requires BrokeOff(env, first, files, now)
      ensures Migrate(env, now, files) == Migrate(env, first, files)
    {
      var k :| ReachedBy(env, first, files, k, now);
      ResumeSame(env, first, files, k);
    }

    /** `runSqlMigrations`. Whatever happens, to this runner and to others before it, a prefix of the files
        has taken effect and the lock is free; success means the whole uninterrupted run has. */
    method RunSqlMigrations(files: seq<File>, allowEmpty: bool, faults: nat -> Fault) returns (error: Option<MigrationError>)
      requires !lockHeld
      modifies this
      ensures !lockHeld && BrokeOff(env, old(db), files, db)
      ensures error.None? ==> Migrate(env, old(db), files) == Outcome(db, None)
      ensures (error == Some(BadNamespace) <==> !ValidNamespace(env.namespace)) && (error == Some(BadNamespace) ==> db == old(db))
      ensures error == Some(NoFiles) <==> ValidNamespace(env.namespace) && files == [] && !allowEmpty
      ensures error == Some(Interrupted) ==> exists i :: !faults(i).NoFault?
      ensures ValidNamespace(env.namespace) && (files != [] || allowEmpty) && (forall i :: faults(i).NoFault?) ==>
                Migrate(env, old(db), files) == Outcome(db, error)
    {
      assert ReachedBy(env, db, files, 0, db);
      if !ValidNamespace(env.namespace) {
        return Some(BadNamespace);
      }
      AcquireLock(files);
      ghost var locked := db;
      if |files| == 0 && !allowEmpty {
        assert ReachedBy(env, db, files, 0, db);
        error := Some(NoFiles);
      } else {
        error := ApplyAll(files, faults);
      }
      BrokeOffOn(env, old(db), locked, db, files);
      SameEnd(old(db), locked, files);
      lockHeld := false;
    }
  }
}
