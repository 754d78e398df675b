/** When a message may be claimed again after a failure, and which messages a purge takes: laws of the log,
    over whole runs. */
module OutboxRetries {
  import opened Prelude
  import opened OutboxMachine
  import opened OutboxSafety
  import opened OutboxGuarantees

  // ----- retries wait -----

  /** A failure that is to be retried. */
  predicate IsRetry(e: Entry) { e.Failed? && !e.dead }

  /** The message is not due before this time, unless the time has come. */
  predicate NotBefore(s: State, id: Id, t: int) {
    id in s.table ==> t <= s.table[id].availableAt && (IsLocked(s.table[id]) || !Pending(s.table[id]) ==> t <= s.clock)
  }

  /** Since the failure at `i` nobody has claimed its message too early, and nobody can. */
  ghost predicate Waited(s: State, i: nat)
    requires i < |s.log| && IsRetry(s.log[i])
  {
    && NotBefore(s, s.log[i].id, s.log[i].retryAt)
    && forall j :: i < j < |s.log| && s.log[j].Claimed? && s.log[j].id == s.log[i].id ==> s.log[i].retryAt <= s.log[j].at
  }

  ghost predicate RetriesWait(s: State) {
    forall i :: 0 <= i < |s.log| && IsRetry(s.log[i]) ==> Waited(s, i)
  }

  /** One entry is logged, and its message is as late as it has to be. */
  lemma EntryWaits(s: State, s': State, e: Entry)
    requires RetriesWait(s) && s'.log == s.log + [e] && s'.clock == s.clock
    requires forall id :: id in s'.table && id != e.id ==> id in s.table && s'.table[id] == s.table[id]
    requires forall t :: NotBefore(s, e.id, t) ==> NotBefore(s', e.id, t) && (e.Claimed? ==> t <= e.at)
    requires IsRetry(e) ==> NotBefore(s', e.id, e.retryAt)
    ensures RetriesWait(s')
  {
    forall i | 0 <= i < |s'.log| && IsRetry(s'.log[i]) ensures Waited(s', i) {
      if i < |s.log| { assert Waited(s, i) && s'.log[i] == s.log[i]; }
    }
  }

  lemma AppendWaits(s: State, e: Event, now: int)
    requires RetriesWait(s) && FreshId(s, e.id)
    ensures RetriesWait(SetRow(s, e.id, NewRow(e, now), Appended(e.id)))
  {
    var s' := SetRow(s, e.id, NewRow(e, now), Appended(e.id));
    forall i | 0 <= i < |s'.log| && IsRetry(s'.log[i]) ensures Waited(s', i) {
      assert Waited(s, i) && s'.log[i] == s.log[i];
    }
  }

  lemma {:induction false} ClaimAllWaits(s: State, order: seq<Id>, leaseMs: int, worker: string, now: int)
    requires RetriesWait(s) && Distinct(order) && now <= s.clock
    requires forall id :: id in order ==> id in s.table && Claimable(s.table[id], now)
    ensures RetriesWait(ClaimAll(s, order, leaseMs, worker, now))
    decreases |order|
  {
    if order != [] {
      assert order[0] in order;
      var s1 := ClaimOne(s, order[0], leaseMs, worker, now);
      EntryWaits(s, s1, s1.log[|s.log|]);
      OthersStillClaimable(s, order, leaseMs, worker, now);
      ClaimAllWaits(s1, order[1..], leaseMs, worker, now);
    }
  }

  lemma CompleteWaits(s: State, id: Id, token: Token, worker: string)
    requires RetriesWait(s)
    ensures RetriesWait(CompleteOne(s, id, token, worker))
  {
    var s' := CompleteOne(s, id, token, worker);
    if s' != s { EntryWaits(s, s', Completed(id, token, s.clock)); }
  }

  lemma FailWaits(s: State, id: Id, token: Token, worker: string, dead: bool, delayMs: int, error: string)
    requires RetriesWait(s) && delayMs >= 0
    ensures RetriesWait(FailOne(s, id, token, worker, dead, delayMs, error))
  {
    var s' := FailOne(s, id, token, worker, dead, delayMs, error);
    if s' != s { EntryWaits(s, s', Failed(id, token, s.clock, dead, s.clock + delayMs, error)); }
  }

  lemma RequeueWaits(s: State, id: Id)
    requires RetriesWait(s)
    ensures RetriesWait(RequeueOne(s, id))
  {
    if IsDeadLetter(s, id) { EntryWaits(s, RequeueOne(s, id), Requeued(id, s.clock)); }
  }

  lemma {:induction false} PurgeAllWaits(s: State, victims: set<Id>)
    requires RetriesWait(s)
    ensures RetriesWait(PurgeAll(s, victims))
    decreases victims
  {
    if victims != {} {
      var id :| id in victims && PurgeAll(s, victims) == PurgeAll(PurgeOne(s, id), victims - {id});
      EntryWaits(s, PurgeOne(s, id), Purged(id));
      PurgeAllWaits(PurgeOne(s, id), victims - {id});
    }
  }

  lemma TickWaits(s: State, to: int)
    requires RetriesWait(s) && s.clock <= to
    ensures RetriesWait(s.(clock := to))
  {
    var s' := s.(clock := to);
    forall i | 0 <= i < |s'.log| && IsRetry(s'.log[i]) ensures Waited(s', i) { assert Waited(s, i); }
  }

  lemma StepWaits(s: State, step: Step)
    requires RetriesWait(s) && Enabled(s, step)
    ensures RetriesWait(Apply(s, step))
  {
    match step
    case Tick(to) => TickWaits(s, to);
    case Append(e, now) => AppendWaits(s, e, now);
    case Claim(order, limit, leaseMs, worker, now) =>
      ClaimOrderInTable(s, order, limit, now);
      ClaimAllWaits(s, order, leaseMs, worker, now);
    case Complete(id, token, worker) => CompleteWaits(s, id, token, worker);
    case Fail(id, token, worker, attempt, delayMs, error) =>
      FailWaits(s, id, token, worker, attempt >= s.maxAttempts, delayMs, error);
    case Requeue(id) => RequeueWaits(s, id);
    case Purge(victims, _, _, _) => PurgeAllWaits(s, victims);
  }

  lemma {:induction false} RunWaits(s: State, steps: seq<Step>, s': State)
    requires RetriesWait(s) && Run(s, steps, s')
    ensures RetriesWait(s')
    decreases |steps|
  {
    if steps != [] {
      StepWaits(s, steps[0]);
      RunWaits(Apply(s, steps[0]), steps[1..], s');
    }
  }

  /** A failed message waits for its retry: no later claim of it comes before the failure's time plus its
      delay, whatever workers, requeues and purges do in between. */
  lemma NoEarlyRetry(s: State, i: nat, j: nat)
    requires Reachable(s) && i < j < |s.log| && IsRetry(s.log[i])
    requires s.log[j].Claimed? && s.log[j].id == s.log[i].id
    ensures s.log[i].retryAt <= s.log[j].at
  {
    var s0, steps :| Initial(s0) && Run(s0, steps, s);
    RunWaits(s0, steps, s);
    assert Waited(s, i);
  }

  /** And it waits no longer: as long as the failure is the last word on it, it can be claimed at `now` exactly
      from that time on. A requeued message is due from its requeue on, a claimed one not before its lease has
      run out, and a finalized one never. */
  lemma DueExactly(s: State, id: Id, now: int)
    requires Reachable(s) && id in s.table
    ensures LastAbout(s.log, id) >= 0
    ensures var last := s.log[LastAbout(s.log, id)];
            && (IsRetry(last) ==> (Claimable(s.table[id], now) <==> last.retryAt <= now))
            && (last.Requeued? ==> (Claimable(s.table[id], now) <==> last.at <= now))
            && (last.Claimed? && Claimable(s.table[id], now) ==> last.until <= now)
            && (last.Completed? || (last.Failed? && last.dead) ==> !Claimable(s.table[id], now))
  {
    assert RowInv(s, id) by { ReachableInv(s); }
  }

  // ----- a message keeps its place -----

  predicate Reschedules(e: Entry, id: Id) {
    e.id == id && (e.Failed? || e.Requeued?)
  }

  /** Nothing logged from `from` on gives the message a new time. */
  ghost predicate NotRescheduled(log: seq<Entry>, from: nat, id: Id) {
    forall k :: from <= k < |log| ==> !Reschedules(log[k], id)
  }

  lemma StepKeepsPlace(s: State, step: Step, id: Id)
    requires Enabled(s, step) && id in s.table && Appended(id) in s.log && id in Apply(s, step).table
    requires NotRescheduled(Apply(s, step).log, |s.log|, id)
    ensures Apply(s, step).table[id].availableAt == s.table[id].availableAt && Apply(s, step).table[id].event == s.table[id].event
  {
    match step
    case Append(e, _) => assert e.id != id;
    case Claim(order, limit, leaseMs, worker, now) =>
      ClaimOrderInTable(s, order, limit, now);
      ClaimAllRows(s, order, leaseMs, worker, now);
    case Fail(failed, token, worker, attempt, delayMs, error) =>
      var s' := Apply(s, step);
      if failed == id && s' != s { assert Reschedules(s'.log[|s.log|], id); }
    case Requeue(requeued) =>
      var s' := Apply(s, step);
      if requeued == id && s' != s { assert Reschedules(s'.log[|s.log|], id); }
    case Purge(victims, _, _, _) => PurgeAllTable(s, victims);
    case _ =>
  }

  /** A message keeps its place among those that are due: through any run, with all its claims and lost leases,
      its time and its event stay until it fails or is requeued. Every message of a reachable table was appended. */
  lemma {:induction false} KeepsPlace(s: State, steps: seq<Step>, s': State, id: Id)
    requires Run(s, steps, s') && id in s.table && Appended(id) in s.log
    requires id in s'.table && NotRescheduled(s'.log, |s.log|, id)
    ensures s'.table[id].availableAt == s.table[id].availableAt && s'.table[id].event == s.table[id].event
    decreases |steps|
  {
    if steps != [] {
      var s1 := Apply(s, steps[0]);
      StepLogs(s, steps[0]);
      RunLogs(s1, steps[1..], s');
      StillAppended(s.log, s1.log, id);
      if id in s1.table {
        PrefixNotRescheduled(s1.log, s'.log, |s.log|, id);
        StepKeepsPlace(s, steps[0], id);
        KeepsPlace(s1, steps[1..], s', id);
      } else {
        GoneStays(s1, steps[1..], s', id);
      }
    }
  }

  lemma StillAppended(log: seq<Entry>, log': seq<Entry>, id: Id)
    requires log <= log' && Appended(id) in log
    ensures Appended(id) in log'
  {
  }

  lemma PrefixNotRescheduled(log: seq<Entry>, log': seq<Entry>, from: nat, id: Id)
    requires from <= |log| && log <= log' && NotRescheduled(log', from, id)
    ensures NotRescheduled(log, from, id) && NotRescheduled(log', |log|, id)
  {
    assert forall k :: from <= k < |log| ==> log'[k] == log[k];
  }

  lemma {:induction false} ClaimAllLogs(s: State, order: seq<Id>, leaseMs: int, worker: string, now: int)
    requires forall id :: id in order ==> id in s.table
    ensures s.log <= ClaimAll(s, order, leaseMs, worker, now).log
    decreases |order|
  {
    if order != [] { ClaimAllLogs(ClaimOne(s, order[0], leaseMs, worker, now), order[1..], leaseMs, worker, now); }
  }

  lemma {:induction false} PurgeAllLogs(s: State, victims: set<Id>)
    ensures s.log <= PurgeAll(s, victims).log
    decreases victims
  {
    if victims != {} {
      var id :| id in victims && PurgeAll(s, victims) == PurgeAll(PurgeOne(s, id), victims - {id});
      PurgeAllLogs(PurgeOne(s, id), victims - {id});
    }
  }

  lemma StepLogs(s: State, step: Step)
    requires Enabled(s, step)
    ensures s.log <= Apply(s, step).log
  {
    match step
    case Claim(order, limit, leaseMs, worker, now) =>
      ClaimOrderInTable(s, order, limit, now);
      ClaimAllLogs(s, order, leaseMs, worker, now);
    case Purge(victims, _, _, _) => PurgeAllLogs(s, victims);
    case _ =>
  }

  lemma {:induction false} RunLogs(s: State, steps: seq<Step>, s': State)
    requires Run(s, steps, s')
    ensures s.log <= s'.log
    decreases |steps|
  {
    if steps != [] {
      StepLogs(s, steps[0]);
      RunLogs(Apply(s, steps[0]), steps[1..], s');
    }
  }

  /** A message that has left the table does not come back. */
  lemma {:induction false} GoneStays(s: State, steps: seq<Step>, s': State, id: Id)
    requires Run(s, steps, s') && id !in s.table && Appended(id) in s.log
    ensures id !in s'.table
    decreases |steps|
  {
    if steps != [] {
      StepLogs(s, steps[0]);
      StillAppended(s.log, Apply(s, steps[0]).log, id);
      GoneStep(s, steps[0], id);
      GoneStays(Apply(s, steps[0]), steps[1..], s', id);
    }
  }

  lemma GoneStep(s: State, step: Step, id: Id)
    requires Enabled(s, step) && id !in s.table && Appended(id) in s.log
    ensures id !in Apply(s, step).table
  {
    match step
    case Append(e, _) => assert e.id != id;
    case Claim(order, limit, leaseMs, worker, now) =>
      ClaimOrderInTable(s, order, limit, now);
      ClaimAllRows(s, order, leaseMs, worker, now);
    case Purge(victims, _, _, _) => PurgeAllTable(s, victims);
    case _ =>
  }

  /** What a recorded failure says: it comes from the current owner, at the clock, dead or to be retried after
      exactly this delay. */
  lemma FailureSays(s: State, id: Id, token: Token, worker: string, dead: bool, delayMs: int, error: string)
    requires Reachable(s) && FailOne(s, id, token, worker, dead, delayMs, error) != s
    ensures FailOne(s, id, token, worker, dead, delayMs, error).log
         == s.log + [Failed(id, token, s.clock, dead, s.clock + delayMs, error)]
    ensures exists i :: 0 <= i < |s.log| && HoldsLeaseAs(s, i, id, token, worker)
  {
    var i := LastAbout(s.log, id);
    assert i >= 0 && HoldsLeaseAs(s, i, id, token, worker) by {
      ReachableInv(s);
      OwnerHolds(s, id, token, worker);
    }
  }

  lemma OwnerHolds(s: State, id: Id, token: Token, worker: string)
    requires Inv(s) && id in s.table && Owned(s.table[id], token, worker, s.clock)
    ensures LastAbout(s.log, id) >= 0 && HoldsLeaseAs(s, LastAbout(s.log, id), id, token, worker)
  {
    assert RowInv(s, id);
  }

  ghost predicate HoldsLeaseAs(s: State, i: nat, id: Id, token: Token, worker: string)
    requires i < |s.log|
  {
    var e := s.log[i];
    e.Claimed? && e.id == id && e.token == token && e.worker == worker && HoldsLease(s, i)
  }

  // ----- purges take the oldest -----

  /** The message is finalized, since before the limit for its kind. */
  predicate Outdated(s: State, id: Id, processedBefore: int, deadBefore: int)
    requires LastAbout(s.log, id) >= 0
  {
    match s.log[LastAbout(s.log, id)]
    case Completed(_, _, at) => at < processedBefore
    case Failed(_, _, at, dead, _, _) => dead && at < deadBefore
    case _ => false
  }

  function FinalizedAt(s: State, id: Id): int
    requires LastAbout(s.log, id) >= 0
  {
    match s.log[LastAbout(s.log, id)]
    case Completed(_, _, at) => at
    case Failed(_, _, at, _, _, _) => at
    case _ => s.clock
  }

  /** What the purge looks at is what the log says. */
  lemma PurgeableOutdated(s: State, id: Id, processedBefore: int, deadBefore: int)
    requires Reachable(s) && id in s.table
    ensures LastAbout(s.log, id) >= 0
    ensures Purgeable(s.table[id], processedBefore, deadBefore) <==> Outdated(s, id, processedBefore, deadBefore)
    ensures Outdated(s, id, processedBefore, deadBefore) ==>
              FinalizedAt(s, id) == PurgeOrder(s.table, processedBefore, deadBefore)[id].major
  {
    assert RowInv(s, id) by { ReachableInv(s); }
  }

  /** A purge takes outdated messages, the longest finalized first, up to its limit or all there are, and
      takes nothing else out of the table. */
  lemma PurgeTakesOldest(s: State, victims: set<Id>, limit: nat, processedBefore: int, deadBefore: int)
    requires Reachable(s) && Enabled(s, Purge(victims, limit, processedBefore, deadBefore))
    ensures forall id :: id in s.table ==> LastAbout(s.log, id) >= 0
    ensures |victims| <= limit && forall id :: id in victims ==> id in s.table && Outdated(s, id, processedBefore, deadBefore)
    ensures |victims| < limit ==> forall id :: id in s.table && Outdated(s, id, processedBefore, deadBefore) ==> id in victims
    ensures forall id, other :: id in victims && other in s.table && other !in victims && Outdated(s, other, processedBefore, deadBefore) ==>
              FinalizedAt(s, id) <= FinalizedAt(s, other)
    ensures Apply(s, Purge(victims, limit, processedBefore, deadBefore)).table == s.table - victims
  {
    var rows := PurgeOrder(s.table, processedBefore, deadBefore);
    forall id | id in s.table
      ensures LastAbout(s.log, id) >= 0 && (id in rows <==> Outdated(s, id, processedBefore, deadBefore))
      ensures Outdated(s, id, processedBefore, deadBefore) ==> FinalizedAt(s, id) == rows[id].major
    {
      PurgeableOutdated(s, id, processedBefore, deadBefore);
    }
    if |victims| < limit { WholeBatch(rows, victims); }
    PurgeAllTable(s, victims);
    forall id, other | id in victims && other in s.table && other !in victims && Outdated(s, other, processedBefore, deadBefore)
      ensures FinalizedAt(s, id) <= FinalizedAt(s, other)
    {
      assert other in rows.Keys - victims;
      assert KeyLe(rows[id], rows[other]);
    }
  }
}
