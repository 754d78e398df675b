/** Every step of the ledger machine keeps its invariant. */
module LedgerSafety {
  import opened Prelude
  import opened JsonText
  import opened LedgerMachine

  // ----- steps inside a transaction -----

  ghost predicate SameLedger(s: State, s': State) {
    && s'.records == s.records && s'.origin == s.origin && s'.history == s.history && s'.product == s.product
    && s'.lockOf == s.lockOf && s'.jsonb == s.jsonb
  }

  /** From `s` to `s'` only transaction `id` moves: committed data stay, its identity stays, and
      row locks are only added, for it, on committed rows. */
  ghost predicate Advances(s: State, s': State, id: nat) {
    && SameLedger(s, s') && s'.clock == s.clock && s'.nextId == s.nextId
    && id in s.live && id in s'.live && s'.live == s.live[id := s'.live[id]]
    && s'.live[id].key == s.live[id].key && s'.live[id].start == s.live[id].start
    && (forall k :: k in s.rowLocks ==> k in s'.rowLocks && s'.rowLocks[k] == s.rowLocks[k])
    && (forall k :: k in s'.rowLocks && k !in s.rowLocks ==> s'.rowLocks[k] == id && k in s.records)
  }

  ghost predicate DeletesLocked(s: State, id: nat)
    requires id in s.live
  {
    forall k :: k in s.live[id].deleted ==>
      k in s.rowLocks && s.rowLocks[k] == id && k in s.records && s.records[k].expires <= s.live[id].start
  }

  ghost predicate RunAfterExpiry(s: State, id: nat)
    requires id in s.live
  {
    IsRunning(s.live[id].phase) ==>
      forall i :: 0 <= i < |s.history| && IsExecution(s.history[i], s.live[id].key) ==>
        Expiry(s.history[i]) <= s.live[id].looked
  }

  lemma SameLedgerSound(s: State, s': State)
    requires LedgerSound(s) && SameLedger(s, s') && s.clock <= s'.clock
    ensures LedgerSound(s')
  {
  }

  lemma AdvanceRowLocks(s: State, s': State, id: nat)
    requires RowLocksMatch(s) && Advances(s, s', id) && DeletesLocked(s', id)
    ensures RowLocksMatch(s')
  {
  }

  /** A transaction that did not move still knows what it knew. */
  lemma BystanderSound(s: State, s': State, i: nat)
    requires i in s.live && TxnSound(s, i) && SameLedger(s, s') && s.clock <= s'.clock
    requires i in s'.live && s'.live[i] == s.live[i]
    requires s.live[i].key in s.rowLocks && s.rowLocks[s.live[i].key] == i ==>
               s.live[i].key in s'.rowLocks && s'.rowLocks[s.live[i].key] == i
    ensures TxnSound(s', i)
  {
  }

  lemma AdvanceTxns(s: State, s': State, id: nat)
    requires TxnsSound(s) && Advances(s, s', id) && TxnSound(s', id)
    ensures TxnsSound(s')
  {
    forall i | i in s'.live ensures TxnSound(s', i) {
      if i != id { BystanderSound(s, s', i); }
    }
  }

  lemma AdvanceRuns(s: State, s': State, id: nat)
    requires RunsAfterExpiry(s) && Advances(s, s', id) && RunAfterExpiry(s', id)
    ensures RunsAfterExpiry(s')
  {
  }

  /** What the transaction that moves owes. */
  ghost predicate Moves(s: State, s': State, id: nat) {
    Advances(s, s', id) && DeletesLocked(s', id) && TxnSound(s', id) && RunAfterExpiry(s', id)
  }

  /** It is enough to look at the transaction that moves, and at the advisory locks. */
  lemma MoveKeeps(s: State, s': State, id: nat)
    requires Inv(s) && Moves(s, s', id) && LocksMatch(s')
    ensures Inv(s')
  {
    SameLedgerSound(s, s');
    AdvanceRowLocks(s, s', id);
    AdvanceTxns(s, s', id);
    AdvanceRuns(s, s', id);
    assert IdsFresh(s');
  }

  lemma SameLocks(s: State, s': State, id: nat)
    requires LocksMatch(s) && Advances(s, s', id) && s'.locks == s.locks
    requires HoldsLock(s'.live[id].phase) == HoldsLock(s.live[id].phase)
    ensures LocksMatch(s')
  {
  }

  lemma TryLockLocks(s: State, id: nat)
    requires LocksMatch(s) && InPhase(s, id, Begun)
    ensures LocksMatch(AfterTryLock(s, id))
  {
  }

  lemma TryLockMoves(s: State, id: nat)
    requires RowLocksMatch(s) && InPhase(s, id, Begun) && TxnSound(s, id)
    ensures Moves(s, AfterTryLock(s, id), id)
  {
    TryLockAdvances(s, id);
    assert TxnSound(AfterTryLock(s, id), id);
  }

  lemma TryLockAdvances(s: State, id: nat)
    requires RowLocksMatch(s) && InPhase(s, id, Begun) && TxnSound(s, id)
    ensures Advances(s, AfterTryLock(s, id), id)
  {
  }

  lemma TryLockKeeps(s: State, id: nat)
    requires Inv(s) && InPhase(s, id, Begun)
    ensures Inv(AfterTryLock(s, id))
  {
    TryLockLocks(s, id);
    TryLockMoves(s, id);
    MoveKeeps(s, AfterTryLock(s, id), id);
  }

  lemma DeleteOwnMoves(s: State, id: nat)
    requires RowLocksMatch(s) && InPhase(s, id, Locked) && TxnSound(s, id)
    requires OwnExpired(s, s.live[id]) ==> !RowBusy(s, s.live[id].key, id)
    ensures Moves(s, AfterDeleteOwn(s, id), id)
  {
  }

  lemma DeleteOwnKeeps(s: State, id: nat)
    requires Inv(s) && InPhase(s, id, Locked) && (OwnExpired(s, s.live[id]) ==> !RowBusy(s, s.live[id].key, id))
    ensures Inv(AfterDeleteOwn(s, id))
  {
    assert Moves(s, AfterDeleteOwn(s, id), id) by {
      assert TxnSound(s, id);
      DeleteOwnMoves(s, id);
    }
    assert LocksMatch(AfterDeleteOwn(s, id)) by { SameLocks(s, AfterDeleteOwn(s, id), id); }
    MoveKeeps(s, AfterDeleteOwn(s, id), id);
  }

  lemma SweepMoves(s: State, id: nat, victims: set<Key>)
    requires RowLocksMatch(s) && InPhase(s, id, Cleared) && TxnSound(s, id)
    requires victims <= SweepRows(s, s.live[id]).Keys
    ensures Moves(s, AfterSweep(s, id, victims), id)
  {
  }

  lemma SweepKeeps(s: State, id: nat, victims: set<Key>)
    requires Inv(s) && InPhase(s, id, Cleared) && victims <= SweepRows(s, s.live[id]).Keys
    ensures Inv(AfterSweep(s, id, victims))
  {
    SweepMoves(s, id, victims);
    SameLocks(s, AfterSweep(s, id, victims), id);
    MoveKeeps(s, AfterSweep(s, id, victims), id);
  }

  /** Finding no row means that every earlier execution of the key has expired in real time. */
  lemma AbsentMeansExpired(s: State, id: nat)
    requires HistoryMatches(s) && RowLocksMatch(s) && id in s.live && TxnSound(s, id)
    requires !Visible(s, s.live[id])
    ensures forall i :: 0 <= i < |s.history| && IsExecution(s.history[i], s.live[id].key) ==>
              Expiry(s.history[i]) <= s.clock
  {
  }

  lemma AbsentMoves(s: State, id: nat)
    requires RowLocksMatch(s) && HistoryMatches(s) && InPhase(s, id, Swept) && TxnSound(s, id)
    requires !Visible(s, s.live[id])
    ensures Moves(s, AfterLookup(s, id), id)
  {
    AbsentMeansExpired(s, id);
    var s' := AfterLookup(s, id);
    assert s'.live[id] == s.live[id].(phase := Running([]), looked := s.clock);
  }

  lemma FoundWasCommitted(s: State, k: Key)
    requires HistoryMatches(s) && AllAnswered(s) && k in s.records
    ensures k in s.origin && s.origin[k] < |s.history| && s.history[s.origin[k]].committed <= s.clock
  {
    assert LastExecution(s.history, k, s.origin[k]);
  }

  lemma FoundMoves(s: State, id: nat)
    requires RowLocksMatch(s) && InPhase(s, id, Swept) && TxnSound(s, id)
    requires Visible(s, s.live[id]) && !RowBusy(s, s.live[id].key, id)
    requires var k := s.live[id].key;
             k in s.origin && s.origin[k] < |s.history| && s.history[s.origin[k]].committed <= s.clock
    ensures Moves(s, AfterLookup(s, id), id)
  {
    var s' := AfterLookup(s, id);
    assert s'.live[id].phase.Decided? && s'.live[id].deleted == s.live[id].deleted;
    assert ReadsRow(s', id);
  }

  lemma LookupKeeps(s: State, id: nat)
    requires Inv(s) && InPhase(s, id, Swept) && (Visible(s, s.live[id]) ==> !RowBusy(s, s.live[id].key, id))
    ensures Inv(AfterLookup(s, id))
  {
    if Visible(s, s.live[id]) {
      FoundWasCommitted(s, s.live[id].key);
      FoundMoves(s, id);
    } else {
      AbsentMoves(s, id);
    }
    SameLocks(s, AfterLookup(s, id), id);
    MoveKeeps(s, AfterLookup(s, id), id);
  }

  lemma WriteMoves(s: State, id: nat, w: Write)
    requires RowLocksMatch(s) && id in s.live && RunAfterExpiry(s, id) && TxnSound(s, id) && s.live[id].phase.Running?
    ensures Moves(s, AfterWrite(s, id, w), id)
  {
  }

  lemma InsertMoves(s: State, id: nat, status: int, body: Json)
    requires RowLocksMatch(s) && id in s.live && RunAfterExpiry(s, id) && TxnSound(s, id) && s.live[id].phase.Running?
    ensures Moves(s, AfterInsert(s, id, status, body), id)
  {
  }

  lemma WriteKeeps(s: State, id: nat, w: Write)
    requires Inv(s) && id in s.live && s.live[id].phase.Running?
    ensures Inv(AfterWrite(s, id, w))
  {
    WriteMoves(s, id, w);
    SameLocks(s, AfterWrite(s, id, w), id);
    MoveKeeps(s, AfterWrite(s, id, w), id);
  }

  lemma InsertKeeps(s: State, id: nat, status: int, body: Json)
    requires Inv(s) && id in s.live && s.live[id].phase.Running?
    ensures Inv(AfterInsert(s, id, status, body))
  {
    InsertMoves(s, id, status, body);
    SameLocks(s, AfterInsert(s, id, status, body), id);
    MoveKeeps(s, AfterInsert(s, id, status, body), id);
  }

  lemma TickKeeps(s: State, to: int)
    requires Inv(s) && to >= s.clock
    ensures Inv(s.(clock := to))
  {
    SameLedgerSound(s, s.(clock := to));
    TickTxns(s, to);
    TickLocks(s, to);
  }

  lemma TickTxns(s: State, to: int)
    requires TxnsSound(s) && RunsAfterExpiry(s) && to >= s.clock
    ensures TxnsSound(s.(clock := to)) && RunsAfterExpiry(s.(clock := to))
  {
    var s' := s.(clock := to);
    forall i | i in s'.live ensures TxnSound(s', i) { BystanderSound(s, s', i); }
  }

  lemma TickLocks(s: State, to: int)
    requires LocksMatch(s) && RowLocksMatch(s) && IdsFresh(s)
    ensures LocksMatch(s.(clock := to)) && RowLocksMatch(s.(clock := to)) && IdsFresh(s.(clock := to))
  {
  }

  lemma BeginFrames(s: State, key: Key, hash: string, ttl: int)
    requires IdsFresh(s)
    ensures LocksMatch(s) ==> LocksMatch(AfterBegin(s, key, hash, ttl))
    ensures RowLocksMatch(s) ==> RowLocksMatch(AfterBegin(s, key, hash, ttl))
    ensures IdsFresh(AfterBegin(s, key, hash, ttl))
  {
  }

  lemma BeginTxns(s: State, key: Key, hash: string, ttl: int)
    requires IdsFresh(s) && TxnsSound(s)
    ensures TxnsSound(AfterBegin(s, key, hash, ttl))
    ensures RunsAfterExpiry(s) ==> RunsAfterExpiry(AfterBegin(s, key, hash, ttl))
  {
    var s' := AfterBegin(s, key, hash, ttl);
    forall i | i in s'.live ensures TxnSound(s', i) {
      if i in s.live { BystanderSound(s, s', i); }
    }
  }

  lemma BeginKeeps(s: State, key: Key, hash: string, ttl: int)
    requires Inv(s)
    ensures Inv(AfterBegin(s, key, hash, ttl))
  {
    SameLedgerSound(s, AfterBegin(s, key, hash, ttl));
    BeginFrames(s, key, hash, ttl);
    BeginTxns(s, key, hash, ttl);
  }

  // ----- the end of a transaction -----

  lemma ReleaseLocks(s: State, id: nat)
    requires LocksMatch(s)
    ensures LocksMatch(Release(s, id))
  {
  }

  lemma ReleaseRowLocks(s: State, id: nat)
    requires RowLocksMatch(s)
    ensures RowLocksMatch(Release(s, id))
  {
  }

  lemma ReleaseTxns(s: State, id: nat)
    requires TxnsSound(s)
    ensures TxnsSound(Release(s, id))
  {
    var s' := Release(s, id);
    forall i | i in s'.live ensures TxnSound(s', i) { BystanderSound(s, s', i); }
  }

  lemma AbortKeeps(s: State, id: nat)
    requires Inv(s)
    ensures Inv(Release(s, id))
  {
    var s' := Release(s, id);
    SameLedgerSound(s, s');
    ReleaseLocks(s, id);
    ReleaseRowLocks(s, id);
    ReleaseTxns(s, id);
    assert RunsAfterExpiry(s') && IdsFresh(s');
  }

  predicate CanCommit(s: State, id: nat) {
    id in s.live && (s.live[id].phase.Inserted? || s.live[id].phase.Decided?)
  }

  function AfterCommit(s: State, id: nat, acknowledged: bool): State
    requires CanCommit(s, id)
  {
    Release(Publish(s, id, acknowledged), id)
  }

  /** Two transactions that hold advisory locks work on different keys. */
  lemma HoldersDiffer(s: State, i: nat, j: nat)
    requires LocksMatch(s) && i in s.live && j in s.live && i != j
    requires HoldsLock(s.live[i].phase) && HoldsLock(s.live[j].phase)
    ensures s.live[i].key != s.live[j].key
  {
  }

  lemma CommitLocks(s: State, id: nat, ack: bool)
    requires LocksMatch(s) && CanCommit(s, id)
    ensures LocksMatch(AfterCommit(s, id, ack))
  {
    ReleaseLocks(Publish(s, id, ack), id);
  }

  /** A row locked by another transaction survives the commit unchanged. */
  lemma CommitKeepsLockedRow(s: State, id: nat, ack: bool, k: Key)
    requires RowLocksMatch(s) && CanCommit(s, id) && TxnSound(s, id)
    requires k in s.rowLocks && s.rowLocks[k] != id
    ensures k in AfterCommit(s, id, ack).records && AfterCommit(s, id, ack).records[k] == s.records[k]
  {
    assert k !in s.live[id].deleted;
  }

  lemma CommitRowLocks(s: State, id: nat, ack: bool)
    requires RowLocksMatch(s) && CanCommit(s, id) && TxnSound(s, id)
    ensures RowLocksMatch(AfterCommit(s, id, ack))
  {
    var s' := AfterCommit(s, id, ack);
    forall i, k | i in s'.live && k in s'.live[i].deleted
      ensures k in s'.rowLocks && s'.rowLocks[k] == i && s'.records[k].expires <= s'.live[i].start
    {
      CommitKeepsLockedRow(s, id, ack, k);
    }
    forall k | k in s'.rowLocks ensures k in s'.records {
      CommitKeepsLockedRow(s, id, ack, k);
    }
  }

  /** A commit cannot take away what another transaction has read or failed to find. */
  lemma CommitTxn(s: State, id: nat, ack: bool, i: nat)
    requires LocksMatch(s) && RowLocksMatch(s) && CanCommit(s, id) && TxnSound(s, id)
    requires i in s.live && i != id && TxnSound(s, i)
    ensures TxnSound(AfterCommit(s, id, ack), i)
  {
    var s' := AfterCommit(s, id, ack);
    var t := s.live[i];
    assert s'.live[i] == t;
    if t.key in s.rowLocks && s.rowLocks[t.key] == i {
      CommitKeepsLockedRow(s, id, ack, t.key);
    } else if HoldsLock(t.phase) && s.live[id].phase.Inserted? {
      HoldersDiffer(s, id, i);
    }
  }

  lemma CommitTxns(s: State, id: nat, ack: bool)
    requires LocksMatch(s) && RowLocksMatch(s) && CanCommit(s, id) && TxnsSound(s)
    ensures TxnsSound(AfterCommit(s, id, ack))
  {
    var s' := AfterCommit(s, id, ack);
    assert TxnSound(s, id);
    forall i | i in s'.live ensures TxnSound(s', i) {
      assert TxnSound(s, i);
      CommitTxn(s, id, ack, i);
    }
  }

  lemma CommitRuns(s: State, id: nat, ack: bool)
    requires LocksMatch(s) && CanCommit(s, id) && TxnSound(s, id) && RunsAfterExpiry(s)
    ensures RunsAfterExpiry(AfterCommit(s, id, ack))
  {
    var s' := AfterCommit(s, id, ack);
    forall i | i in s'.live && IsRunning(s'.live[i].phase) ensures RunAfterExpiry(s', i) {
      assert RunAfterExpiry(s, i);
      if s.live[id].phase.Inserted? { HoldersDiffer(s, id, i); }
    }
  }

  lemma CommitIds(s: State, id: nat, ack: bool)
    requires CanCommit(s, id) && IdsFresh(s)
    ensures IdsFresh(AfterCommit(s, id, ack))
  {
  }

  lemma MatchesAfterDelete(rs: map<Key, Record>, origin: map<Key, nat>, h: seq<Finished>, clock: int, gone: set<Key>)
    requires Matches(rs, origin, h, clock)
    requires forall k :: k in gone && k in rs ==> rs[k].expires <= clock
    ensures Matches(rs - gone, origin - gone, h, clock)
  {
  }

  lemma MatchesAfterAnswer(rs: map<Key, Record>, origin: map<Key, nat>, h: seq<Finished>, clock: int, f: Finished)
    requires Matches(rs, origin, h, clock) && !f.outcome.Executed?
    ensures Matches(rs, origin, h + [f], clock)
  {
  }

  lemma MatchesAfterExecution(rs: map<Key, Record>, origin: map<Key, nat>, h: seq<Finished>, clock: int, r: Record, f: Finished)
    requires Matches(rs, origin, h, clock) && f.key !in rs && f.outcome.Executed? && f.stored == Some(r)
    ensures Matches(rs[f.key := r], origin[f.key := |h|], h + [f], clock)
  {
  }

  lemma CommitHistory(s: State, id: nat, ack: bool)
    requires RowLocksMatch(s) && CanCommit(s, id) && TxnSound(s, id) && HistoryMatches(s)
    ensures HistoryMatches(AfterCommit(s, id, ack))
  {
    var t, f := s.live[id], FinishedCall(s, id, ack);
    var rs, origin := s.records - t.deleted, s.origin - t.deleted;
    MatchesAfterDelete(s.records, s.origin, s.history, s.clock, t.deleted);
    if t.phase.Inserted? {
      MatchesAfterExecution(rs, origin, s.history, s.clock, t.phase.record, f);
    } else {
      MatchesAfterAnswer(rs, origin, s.history, s.clock, f);
    }
  }

  lemma CommitApart(s: State, id: nat, ack: bool)
    requires CanCommit(s, id) && TxnSound(s, id) && RunsAfterExpiry(s) && ExecutionsApart(s.history)
    ensures ExecutionsApart(AfterCommit(s, id, ack).history)
  {
    assert RunAfterExpiry(s, id);
  }

  lemma AnsweredPrefix(h: seq<Finished>, f: Finished, j: nat)
    requires j < |h| && Answered(h, j)
    ensures Answered(h + [f], j)
  {
    assert (h + [f])[..j] == h[..j];
    assert forall i :: AnsweredFrom(h, j, i) ==> AnsweredFrom(h + [f], j, i);
  }

  lemma CommitAnswered(s: State, id: nat, ack: bool)
    requires CanCommit(s, id) && TxnSound(s, id) && HistoryMatches(s) && AllAnswered(s)
    ensures AllAnswered(AfterCommit(s, id, ack))
  {
    var s' := AfterCommit(s, id, ack);
    var n := |s.history|;
    assert s'.history[..n] == s.history && s'.history[n] == FinishedCall(s, id, ack);
    CommitAnswer(s, id, ack);
    forall j | 0 <= j <= n ensures Answered(s'.history, j) && s'.history[j].looked <= s'.history[j].committed <= s'.clock {
      if j < n { AnsweredPrefix(s.history, s'.history[n], j); }
    }
  }

  lemma CommitAnswer(s: State, id: nat, ack: bool)
    requires CanCommit(s, id) && TxnSound(s, id) && HistoryMatches(s)
    ensures var n, h := |s.history|, AfterCommit(s, id, ack).history;
            |h| == n + 1 && Answered(h, n) && h[n].looked <= h[n].committed <= AfterCommit(s, id, ack).clock
  {
    var s', n, t := AfterCommit(s, id, ack), |s.history|, s.live[id];
    assert s'.history[..n] == s.history && s'.history[n] == FinishedCall(s, id, ack);
    if t.phase == Decided(Conflict) || (t.phase.Decided? && t.phase.outcome.Replay?) {
      assert LastExecution(s.history, t.key, s.origin[t.key]);
      assert AnsweredFrom(s'.history, n, s.origin[t.key]);
    }
  }

  lemma CommitEffects(s: State, id: nat, ack: bool)
    requires CanCommit(s, id) && TxnSound(s, id) && s.product == Effects(s.history)
    ensures AfterCommit(s, id, ack).product == Effects(AfterCommit(s, id, ack).history)
  {
    var f := FinishedCall(s, id, ack);
    EffectsGrown(s.history, f);
    assert AfterCommit(s, id, ack).history == s.history + [f];
  }

  lemma EffectsGrown(h: seq<Finished>, f: Finished)
    ensures Effects(h + [f]) == Effects(h) + (if f.outcome.Executed? then f.writes else [])
  {
    assert (h + [f])[..|h|] == h;
  }

  lemma CommitStored(s: State, id: nat, ack: bool)
    requires CanCommit(s, id) && TxnSound(s, id)
    requires forall i :: 0 <= i < |s.history| ==> RecordsItself(s.history[i], s.jsonb)
    ensures var s' := AfterCommit(s, id, ack);
            forall i :: 0 <= i < |s'.history| ==> RecordsItself(s'.history[i], s'.jsonb)
  {
    assert RecordsItself(FinishedCall(s, id, ack), s.jsonb);
  }

  lemma CommitKeeps(s: State, id: nat, ack: bool)
    requires Inv(s) && CanCommit(s, id)
    ensures Inv(AfterCommit(s, id, ack))
  {
    assert TxnSound(s, id);
    CommitLocks(s, id, ack);
    CommitRowLocks(s, id, ack);
    CommitTxns(s, id, ack);
    CommitRuns(s, id, ack);
    CommitIds(s, id, ack);
    CommitHistory(s, id, ack);
    CommitApart(s, id, ack);
    CommitAnswered(s, id, ack);
    CommitEffects(s, id, ack);
    CommitStored(s, id, ack);
  }

  // ----- whole runs -----

  /** Only commits touch committed data. */
  lemma QuietStep(s: State, step: Step)
    requires Enabled(s, step) && !step.Commit?
    ensures Apply(s, step).records == s.records && Apply(s, step).history == s.history
    ensures Apply(s, step).product == s.product && s.clock <= Apply(s, step).clock
  {
  }

  lemma StepKeeps(s: State, step: Step)
    requires Inv(s) && Enabled(s, step)
    ensures Inv(Apply(s, step))
  {
    match step
    case Tick(to) => TickKeeps(s, to);
    case Begin(key, hash, ttl) => BeginKeeps(s, key, hash, ttl);
    case TryLock(id) => TryLockKeeps(s, id);
    case DeleteOwn(id) => DeleteOwnKeeps(s, id);
    case Sweep(id, victims) => SweepKeeps(s, id, victims);
    case Lookup(id) => LookupKeeps(s, id);
    case HandlerWrite(id, w) => WriteKeeps(s, id, w);
    case Insert(id, status, body) => InsertKeeps(s, id, status, body);
    case Commit(id, ack) => CommitKeeps(s, id, ack);
    case Abort(id) => AbortKeeps(s, id);
  }

  lemma {:induction false} RunKeeps(s: State, steps: seq<Step>, s': State)
    requires Inv(s) && Run(s, steps, s')
    ensures Inv(s')
    decreases |steps|
  {
    if steps != [] {
      StepKeeps(s, steps[0]);
      RunKeeps(Apply(s, steps[0]), steps[1..], s');
    }
  }
}
