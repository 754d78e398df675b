/** `PostgresIdempotencyStore.runAtomically` and `PostgresDatabase.run`, statement by statement, with
    other sessions free to act between any two statements. */
module IdempotencyStore {
  import opened Prelude
  import opened JsonText
  import opened LedgerMachine
  import opened LedgerSafety

  /** What the handler does: its writes, then a validated result, or nothing when it or the output
      validation throws. */
  datatype Handler = Handler(writes: seq<Write>, result: Option<(int, Json)>)

  /** How COMMIT ends: done, done with the reply lost, or refused and rolled back. */
  datatype CommitFate = Done | ReplyLost | Refused

  datatype StoreError = WaitCancelled | HandlerFailed | NotPersisted | CommitFailed

  // ----- histories of the shared database -----

  /** Some run leads from one state to the other. */
  ghost predicate Leads(s: State, s': State) {
    exists steps :: Run(s, steps, s')
  }

  lemma LeadsNowhere(s: State)
    ensures Leads(s, s)
  {
    assert Run(s, [], s);
  }

  lemma LeadsStep(s: State, step: Step)
    requires Enabled(s, step)
    ensures Leads(s, Apply(s, step))
  {
    assert Run(Apply(s, step), [step][1..], Apply(s, step));
    assert Run(s, [step], Apply(s, step));
  }

  lemma {:induction false} RunAppend(s: State, a: seq<Step>, s1: State, b: seq<Step>, s2: State)
    requires Run(s, a, s1) && Run(s1, b, s2)
    ensures Run(s, a + b, s2)
    decreases |a|
  {
    if a == [] {
      assert a + b == b;
    } else {
      assert (a + b)[1..] == a[1..] + b;
      RunAppend(Apply(s, a[0]), a[1..], s1, b, s2);
    }
  }

  lemma LeadsOn(s: State, s1: State, s2: State)
    requires Leads(s, s1) && Leads(s1, s2)
    ensures Leads(s, s2)
  {
    var a :| Run(s, a, s1);
    var b :| Run(s1, b, s2);
    RunAppend(s, a, s1, b, s2);
  }

  /** What other sessions cannot do: touch transaction `me`, or commit under its name. */
  ghost predicate Spares(s: State, s': State, me: nat) {
    && me in s.live && me in s'.live && s'.live[me] == s.live[me]
    && s.history <= s'.history
  }

  /** The call `id` is in the history from index `from` on, answered as stated. */
  ghost predicate Recorded(h: seq<Finished>, from: nat, id: nat, key: Key, hash: string, outcome: Outcome) {
    exists j :: from <= j < |h| && h[j].id == id && h[j].key == key && h[j].hash == hash
                && h[j].outcome == outcome && h[j].acknowledged
  }

  ghost predicate Absent(h: seq<Finished>, id: nat) {
    forall j :: 0 <= j < |h| ==> h[j].id != id
  }

  /** The transaction is live, working on this call, and began at this time. */
  predicate IsCall(s: State, id: nat, key: Key, hash: string, ttl: int, start: int) {
    && id in s.live && s.live[id].key == key && s.live[id].hash == hash && s.live[id].ttl == ttl
    && s.live[id].start == start
  }

  /** Its next statement meets a row that another transaction holds. */
  predicate WaitsForRow(s: State, id: nat) {
    && id in s.live && RowBusy(s, s.live[id].key, id)
    && ((s.live[id].phase == Locked && OwnExpired(s, s.live[id])) || (s.live[id].phase == Swept && Visible(s, s.live[id])))
  }

  /** On the way from `s` to `s'` the transaction has waited for a row. */
  ghost predicate Blocked(s: State, s': State, id: nat) {
    exists s1 :: Leads(s, s1) && Leads(s1, s') && WaitsForRow(s1, id)
  }

  lemma BlockedLater(s: State, s1: State, s2: State, id: nat)
    requires Leads(s, s1) && Blocked(s1, s2, id)
    ensures Blocked(s, s2, id)
  {
    var w :| Leads(s1, w) && Leads(w, s2) && WaitsForRow(w, id);
    LeadsOn(s, s1, w);
  }

  /** Transaction `id` goes on, or has been rolled back without a trace. */
  ghost predicate Continues(s: State, s': State, id: nat, ok: bool)
    requires id in s.live
  {
    && Inv(s') && Leads(s, s') && s.history <= s'.history
    && (ok ==> IsCall(s', id, s.live[id].key, s.live[id].hash, s.live[id].ttl, s.live[id].start))
    && (!ok ==> id !in s'.live && Absent(s'.history, id))
  }

  lemma ContinuesOn(s: State, s1: State, s2: State, id: nat, ok: bool)
    requires id in s.live && Continues(s, s1, id, true) && Continues(s1, s2, id, ok)
    ensures Continues(s, s2, id, ok)
  {
    LeadsOn(s, s1, s2);
  }

  /** The call's entry, if there is one, counts its result's life from a start no earlier than `since`. */
  ghost predicate Dated(h: seq<Finished>, id: nat, since: int, ttl: int) {
    forall j :: 0 <= j < |h| && h[j].id == id ==> since <= h[j].start <= h[j].committed && h[j].ttl == ttl
  }

  /** If the call's entry is an execution, then of this handler: its writes, its status and its body. */
  ghost predicate ExecutedBy(h: seq<Finished>, id: nat, handler: Handler) {
    forall j :: 0 <= j < |h| && h[j].id == id && h[j].outcome.Executed? ==>
      h[j].writes == handler.writes && handler.result == Some((h[j].outcome.status, h[j].outcome.body))
  }

  /** The call's entry carries exactly these product writes. */
  ghost predicate EffectOf(h: seq<Finished>, id: nat, writes: seq<Write>) {
    forall j :: 0 <= j < |h| && h[j].id == id ==> h[j].writes == writes
  }

  ghost predicate Acknowledged(h: seq<Finished>, id: nat) {
    exists j :: 0 <= j < |h| && h[j].id == id && h[j].acknowledged
  }

  lemma FinishRecords(s: State, id: nat, fate: CommitFate, h: seq<Finished>)
    requires IdsFresh(s) && CanCommit(s, id)
    requires h == if fate.Refused? then s.history else s.history + [FinishedCall(s, id, fate.Done?)]
    ensures fate.Done? ==>
              var f := FinishedCall(s, id, true);
              Recorded(h, |s.history|, id, f.key, f.hash, f.outcome) && EffectOf(h, id, f.writes)
    ensures fate.Refused? ==> Absent(h, id)
    ensures fate.ReplyLost? ==> !Acknowledged(h, id)
    ensures s.live[id].start <= s.clock ==> Dated(h, id, s.live[id].start, s.live[id].ttl)
  {
    if fate.Done? {
      assert h[|s.history|] == FinishedCall(s, id, true);
    }
  }

  class PostgresIdempotencyStore {
    var db: State

    /** Executes one statement. */
    method Statement(step: Step)
      requires Inv(db) && Enabled(db, step)
      modifies this
      ensures db == Apply(old(db), step) && Inv(db) && Leads(old(db), db)
    {
      StepKeeps(db, step);
      LeadsStep(db, step);
      db := Apply(db, step);
    }

    /** Any number of steps of other sessions; callers know nothing more than this contract. */
    method OtherSessions(me: nat)
      requires Inv(db) && me in db.live
      modifies this
      ensures Inv(db) && Leads(old(db), db) && Spares(old(db), db, me)
    {
      LeadsNowhere(db);
    }

    /** `ROLLBACK` */
    method Rollback(id: nat)
      requires Inv(db) && id in db.live
      modifies this
      ensures Inv(db) && Leads(old(db), db) && id !in db.live && db.history == old(db.history)
      ensures Absent(db.history, id)
    {
      Statement(Abort(id));
    }

    /** `COMMIT`, with a rollback when it is refused. */
    method Finish(id: nat, fate: CommitFate) returns (r: Result<Outcome, StoreError>)
      requires Inv(db) && CanCommit(db, id)
      modifies this
      ensures Inv(db) && Leads(old(db), db) && id !in db.live
      ensures r.Ok? <==> fate.Done?
      ensures r.Err? ==> r.error == CommitFailed
      ensures db.history == if fate.Refused? then old(db.history)
                            else old(db.history) + [FinishedCall(old(db), id, fate.Done?)]
      ensures r.Ok? ==> r.value == FinishedCall(old(db), id, true).outcome
    {
      match fate {
        case Done =>
          var outcome := FinishedCall(db, id, true).outcome;
          Statement(Commit(id, true));
          r := Ok(outcome);
        case ReplyLost =>
          Statement(Commit(id, false));
          r := Err(CommitFailed);
        case Refused =>
          Statement(Abort(id));
          r := Err(CommitFailed);
      }
    }

    /** One statement of transaction `me`, and then whatever other sessions do. */
    method Act(step: Step, me: nat)
      requires Inv(db) && Enabled(db, step) && !step.Commit? && !step.Abort?
      requires me in Apply(db, step).live
      modifies this
      ensures Inv(db) && Leads(old(db), db) && Spares(Apply(old(db), step), db, me)
      ensures old(db).history <= db.history
    {
      QuietStep(db, step);
      Statement(step);
      label done:
      OtherSessions(me);
      LeadsOn(old(db), old@done(db), db);
    }

    method BeginCall(key: Key, hash: string, ttl: int) returns (id: nat)
      requires Inv(db)
      modifies this
      ensures Inv(db) && Leads(old(db), db) && old(db).history <= db.history
      ensures InPhase(db, id, Begun) && IsCall(db, id, key, hash, ttl, old(db).clock)
    {
      id := db.nextId;
      Act(Begin(key, hash, ttl), id);
    }

    method TakeLock(id: nat)
      requires Inv(db) && InPhase(db, id, Begun)
      modifies this
      ensures Continues(old(db), db, id, true)
      ensures db.live[id].phase == if LockId(old(db), old(db).live[id].key) in old(db).locks then Decided(InProgress) else Locked
    {
      Act(TryLock(id), id);
    }

    /** A statement that meets another transaction's row waits for it, for as long as `patience` says. */
    method AwaitRow(id: nat, patience: nat)
      requires Inv(db) && id in db.live
      modifies this
      ensures Continues(old(db), db, id, true) && db.live[id] == old(db).live[id]
      ensures !WaitsForRow(old(db), id) ==> db == old(db)
    {
      LeadsNowhere(db);
      var waited := 0;
      while waited < patience && WaitsForRow(db, id)
        invariant Inv(db) && Continues(old(db), db, id, true) && db.live[id] == old(db).live[id]
        invariant !WaitsForRow(old(db), id) ==> db == old(db)
      {
        ghost var before := db;
        OtherSessions(id);
        LeadsOn(old(db), before, db);
        waited := waited + 1;
      }
    }

    /** A wait that is cut short ends the call. */
    method GiveUp(id: nat, ghost first: State)
      requires Inv(db) && WaitsForRow(db, id) && Leads(first, db)
      modifies this
      ensures Inv(db) && Leads(old(db), db) && id !in db.live && db.history == old(db.history)
      ensures Absent(db.history, id) && Blocked(first, db, id)
    {
      Rollback(id);
    }

    method DeleteExpired(id: nat, patience: nat) returns (ok: bool)
      requires Inv(db) && InPhase(db, id, Locked)
      modifies this
      ensures Continues(old(db), db, id, ok) && (if ok then db.live[id].phase == Cleared else Blocked(old(db), db, id))
      ensures !WaitsForRow(old(db), id) ==> ok
    {
      AwaitRow(id, patience);
      ghost var first := db;
      ok := !WaitsForRow(db, id);
      if ok {
        Act(DeleteOwn(id), id);
      } else {
        GiveUp(id, old(db));
      }
      ContinuesOn(old(db), first, db, id, ok);
    }

    method SweepExpired(id: nat)
      requires Inv(db) && InPhase(db, id, Cleared)
      modifies this
      ensures Continues(old(db), db, id, true) && db.live[id].phase == Swept
    {
      var victims := FirstBatch(SweepRows(db, db.live[id]), SWEEP_LIMIT);
      Act(Sweep(id, victims), id);
    }

    method ReadRecord(id: nat, patience: nat) returns (ok: bool)
      requires Inv(db) && InPhase(db, id, Swept)
      modifies this
      ensures Continues(old(db), db, id, ok)
      ensures if ok then db.live[id].phase == Running([]) || db.live[id].phase.Decided? else Blocked(old(db), db, id)
      ensures !WaitsForRow(old(db), id) ==> ok
    {
      AwaitRow(id, patience);
      ghost var first := db;
      ok := !WaitsForRow(db, id);
      if ok {
        Look(id);
      } else {
        GiveUp(id, old(db));
      }
      ContinuesOn(old(db), first, db, id, ok);
    }

    /** The `SELECT` and what follows from its row. */
    method Look(id: nat)
      requires Inv(db) && Enabled(db, Lookup(id))
      modifies this
      ensures Continues(old(db), db, id, true)
      ensures db.live[id].phase == Running([]) || db.live[id].phase.Decided?
    {
      LookedUp(db, id);
      Act(Lookup(id), id);
    }

    lemma LookedUp(s: State, id: nat)
      requires Enabled(s, Lookup(id))
      ensures id in s.live && IsCall(Apply(s, Lookup(id)), id, s.live[id].key, s.live[id].hash, s.live[id].ttl, s.live[id].start)
      ensures var p := Apply(s, Lookup(id)).live[id].phase; p == Running([]) || p.Decided?
    {
    }

    /** From the try-lock to the decision: `Running` when no record is in the way, `Decided` otherwise; false
        only when the call waited for a row in vain. */
    method Decide(id: nat, patience: nat) returns (ok: bool)
      requires Inv(db) && InPhase(db, id, Begun)
      modifies this
      ensures Continues(old(db), db, id, ok)
      ensures if ok then db.live[id].phase == Running([]) || db.live[id].phase.Decided? else Blocked(old(db), db, id)
    {
      TakeLock(id);
      if db.live[id].phase.Decided? {
        return true;
      }
      ghost var locked := db;
      ok := DeleteExpired(id, patience);
      ContinuesOn(old(db), locked, db, id, ok);
      if !ok {
        BlockedLater(old(db), locked, db, id);
        return;
      }
      ok := SweepAndRead(id, patience, old(db));
    }

    method SweepAndRead(id: nat, patience: nat, ghost first: State) returns (ok: bool)
      requires Inv(db) && InPhase(db, id, Cleared) && id in first.live && Continues(first, db, id, true)
      modifies this
      ensures Continues(first, db, id, ok)
      ensures if ok then db.live[id].phase == Running([]) || db.live[id].phase.Decided? else Blocked(first, db, id)
    {
      ghost var cleared := db;
      SweepExpired(id);
      ContinuesOn(first, cleared, db, id, true);
      ghost var swept := db;
      ok := ReadRecord(id, patience);
      ContinuesOn(first, swept, db, id, ok);
      if !ok { BlockedLater(first, swept, db, id); }
    }

    /** The handler's writes through the given transaction, each its own statement. */
    method Write(id: nat, writes: seq<Write>)
      requires Inv(db) && InPhase(db, id, Running([]))
      modifies this
      ensures Inv(db) && Leads(old(db), db) && old(db).history <= db.history
      ensures id in db.live && db.live[id] == old(db).live[id].(phase := Running(writes))
    {
      LeadsNowhere(db);
      for i := 0 to |writes|
        invariant Inv(db) && Written(old(db), db, id, writes[..i])
      {
        ghost var before := db;
        WriteOne(id, writes[..i], writes[i]);
        WrittenOn(old(db), before, db, id, writes, i);
      }
      assert writes[..|writes|] == writes;
    }

    /** From `s` to `s'` the call has made these writes, and history has only grown. */
    ghost predicate Written(s: State, s': State, id: nat, done: seq<Write>) {
      && Leads(s, s') && s.history <= s'.history
      && id in s.live && id in s'.live && s'.live[id] == s.live[id].(phase := Running(done))
    }

    lemma WrittenOn(s: State, s1: State, s2: State, id: nat, writes: seq<Write>, i: nat)
      requires i < |writes| && Written(s, s1, id, writes[..i]) && Written(s1, s2, id, writes[..i] + [writes[i]])
      ensures Written(s, s2, id, writes[..i + 1])
    {
      LeadsOn(s, s1, s2);
      assert writes[..i] + [writes[i]] == writes[..i + 1];
    }

    method WriteOne(id: nat, done: seq<Write>, write: Write)
      requires Inv(db) && InPhase(db, id, Running(done))
      modifies this
      ensures Inv(db) && Written(old(db), db, id, done + [write])
    {
      Act(HandlerWrite(id, write), id);
    }

    /** Runs the handler and stores its result in the same transaction. */
    method ExecuteAndStore(id: nat, handler: Handler) returns (ok: bool, error: StoreError)
      requires Inv(db) && InPhase(db, id, Running([]))
      modifies this
      ensures Continues(old(db), db, id, ok)
      ensures ok <==> handler.result.Some? && ChecksPass(old(db).live[id], handler.result.value.0)
      ensures !ok ==> error == if handler.result.None? then HandlerFailed else NotPersisted
      ensures ok ==> handler.result.Some? && db.live[id].phase.Inserted? && db.live[id].phase.writes == handler.writes
                     && db.live[id].phase.record.status == handler.result.value.0
                     && db.live[id].phase.body == handler.result.value.1
    {
      error := NotPersisted;
      Write(id, handler.writes);
      label written:
      match handler.result {
        case None =>
          Rollback(id);
          error, ok := HandlerFailed, false;
        case Some((status, body)) =>
          ok := Store(id, status, body);
      }
      ContinuesOn(old(db), old@written(db), db, id, ok);
    }

    /** The `INSERT` of the result, refused where a table check fails. */
    method Store(id: nat, status: int, body: Json) returns (ok: bool)
      requires Inv(db) && id in db.live && db.live[id].phase.Running?
      modifies this
      ensures Continues(old(db), db, id, ok) && (ok <==> ChecksPass(old(db).live[id], status))
      ensures ok ==> var p := db.live[id].phase;
                     p.Inserted? && p.writes == old(db).live[id].phase.writes && p.record.status == status && p.body == body
    {
      ok := ChecksPass(db.live[id], status);
      if ok {
        assert TxnSound(db, id);
        CanStore(db, id, status, body);
        Put(id, status, body);
      } else {
        Rollback(id);
      }
    }

    lemma CanStore(s: State, id: nat, status: int, body: Json)
      requires id in s.live && TxnSound(s, id) && s.live[id].phase.Running? && ChecksPass(s.live[id], status)
      ensures Enabled(s, Insert(id, status, body))
      ensures var t := Apply(s, Insert(id, status, body)).live[id];
              t.phase.Inserted? && t.phase.writes == s.live[id].phase.writes && t.phase.record.status == status && t.phase.body == body
    {
    }

    method Put(id: nat, status: int, body: Json)
      requires Inv(db) && Enabled(db, Insert(id, status, body))
      modifies this
      ensures Continues(old(db), db, id, true)
      ensures db.live[id] == Apply(old(db), Insert(id, status, body)).live[id]
    {
      StoredResult(db, id, status, body);
      Act(Insert(id, status, body), id);
    }

    lemma StoredResult(s: State, id: nat, status: int, body: Json)
      requires Enabled(s, Insert(id, status, body))
      ensures var t := s.live[id];
              && IsCall(Apply(s, Insert(id, status, body)), id, t.key, t.hash, t.ttl, t.start)
              && Apply(s, Insert(id, status, body)).live[id].phase
                 == Inserted(t.phase.writes, Record(t.hash, status, s.jsonb(body), t.start + t.ttl), body)
    {
    }

    /** What may be committed: a decision, or the handler's writes with its result. */
    ghost predicate Prepared(s: State, id: nat, handler: Handler) {
      && CanCommit(s, id)
      && var f := FinishedCall(s, id, true);
         f.outcome.Executed? ==> handler.result == Some((f.outcome.status, f.outcome.body)) && f.writes == handler.writes
    }

    /** Why a call ends before its commit: a wait for a row in vain, a handler that throws, or a result the
        table refuses. */
    ghost predicate Fails(s: State, s': State, id: nat, handler: Handler, error: StoreError) {
      match error
      case WaitCancelled => Blocked(s, s', id)
      case HandlerFailed => handler.result.None?
      case NotPersisted => handler.result.Some? && id in s.live && !ChecksPass(s.live[id], handler.result.value.0)
      case CommitFailed => false
    }

    /** Everything up to the commit. */
    method Prepare(id: nat, handler: Handler, patience: nat) returns (ok: bool, error: StoreError)
      requires Inv(db) && InPhase(db, id, Begun)
      modifies this
      ensures Continues(old(db), db, id, ok)
      ensures if ok then Prepared(db, id, handler) else Fails(old(db), db, id, handler, error)
    {
      error := WaitCancelled;
      ok := Decide(id, patience);
      if !ok {
        return;
      }
      ghost var before := db;
      if db.live[id].phase.Running? {
        ok, error := ExecuteAndStore(id, handler);
        ContinuesOn(old(db), before, db, id, ok);
      } else {
        assert TxnSound(db, id);
      }
    }

    /** `COMMIT` of a prepared call, and what the history then says about it. */
    method Conclude(id: nat, handler: Handler, fate: CommitFate) returns (r: Result<Outcome, StoreError>)
      requires Inv(db) && Prepared(db, id, handler)
      modifies this
      ensures Inv(db) && Leads(old(db), db)
      ensures r.Ok? ==> var t := old(db).live[id]; Recorded(db.history, |old(db).history|, id, t.key, t.hash, r.value)
      ensures r.Ok? && r.value.Executed? ==> handler.result == Some((r.value.status, r.value.body))
      ensures r.Ok? && r.value.Executed? ==> EffectOf(db.history, id, handler.writes)
      ensures r.Ok? <==> fate.Done?
      ensures r.Err? ==> r.error == CommitFailed
      ensures fate.Refused? ==> Absent(db.history, id)
      ensures fate.ReplyLost? ==> !Acknowledged(db.history, id)
      ensures ExecutedBy(db.history, id, handler) && Dated(db.history, id, old(db).live[id].start, old(db).live[id].ttl)
    {
      ghost var before := db;
      r := Finish(id, fate);
      FinishRecords(before, id, fate, db.history);
      assert before.live[id].start <= before.clock by { assert TxnSound(before, id); }
      FinishExecuted(before, id, fate, handler, db.history);
    }

    lemma FinishExecuted(s: State, id: nat, fate: CommitFate, handler: Handler, h: seq<Finished>)
      requires IdsFresh(s) && Prepared(s, id, handler)
      requires h == if fate.Refused? then s.history else s.history + [FinishedCall(s, id, fate.Done?)]
      ensures ExecutedBy(h, id, handler)
    {
    }

    /** Entries recorded late are recorded at all. */
    lemma RecordedEarlier(h: seq<Finished>, from: nat, later: nat, id: nat, key: Key, hash: string, outcome: Outcome)
      requires from <= later && Recorded(h, later, id, key, hash, outcome)
      ensures Recorded(h, from, id, key, hash, outcome)
    {
    }

    /** `runAtomically`. The database moves along a run of the ledger machine, whatever other sessions
        do. A returned outcome is committed and recorded; an execution's effects are the handler's,
        all of them; an error leaves nothing behind unless the commit's own reply was lost, and each kind of
        error has its one cause. */
    method RunAtomically(key: Key, hash: string, ttl: int, handler: Handler, patience: nat, fate: CommitFate)
      returns (id: nat, r: Result<Outcome, StoreError>)
      requires Inv(db)
      modifies this
      ensures Inv(db) && Leads(old(db), db)
      ensures r.Ok? ==> fate.Done? && Recorded(db.history, |old(db).history|, id, key, hash, r.value)
      ensures Dated(db.history, id, old(db).clock, ttl) && ExecutedBy(db.history, id, handler)
      ensures r.Ok? && r.value.Executed? ==> handler.result == Some((r.value.status, r.value.body))
      ensures r.Ok? && r.value.Executed? ==> EffectOf(db.history, id, handler.writes)
      ensures r.Err? && !fate.ReplyLost? ==> Absent(db.history, id)
      ensures r.Err? && fate.ReplyLost? ==> !Acknowledged(db.history, id)
      ensures r.Err? && r.error != CommitFailed ==> Absent(db.history, id)
      ensures r == Err(WaitCancelled) ==> Blocked(old(db), db, id)
      ensures r == Err(HandlerFailed) ==> handler.result.None?
      ensures r == Err(NotPersisted) ==> handler.result.Some? && !Storable(key, hash, ttl, handler.result.value.0)
      ensures r == Err(CommitFailed) ==> !fate.Done?
    {
      id := BeginCall(key, hash, ttl);
      ghost var begun := db;
      var ok, error := Prepare(id, handler, patience);
      LeadsOn(old(db), begun, db);
      if !ok {
        if error.WaitCancelled? { BlockedLater(old(db), begun, db, id); }
        return id, Err(error);
      }
      ghost var prepared := db;
      r := Conclude(id, handler, fate);
      LeadsOn(old(db), prepared, db);
      if r.Ok? {
        RecordedEarlier(db.history, |old(db).history|, |prepared.history|, id, key, hash, r.value);
      }
    }
  }
}
