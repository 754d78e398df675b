/** What holds in every state the outbox can reach: fencing, bounded failures, conservation. */
module OutboxGuarantees {
  import opened Prelude
  import opened JsonText
  import opened OutboxMachine
  import opened OutboxSafety

  ghost predicate Reachable(s: State) {
    exists s0, steps :: Initial(s0) && Run(s0, steps, s)
  }

  lemma ReachableInv(s: State)
    requires Reachable(s)
    ensures Inv(s)
  {
    var s0, steps :| Initial(s0) && Run(s0, steps, s);
    RunKeeps(s0, steps, s);
  }

  // ----- fencing -----

  /** The claim a settlement settles, with nothing about the message in between. */
  lemma SettlementOfClaim(s: State, j: nat, i: nat)
    requires Inv(s) && i < |s.log| && j < |s.log| && IsSettlement(s.log[j])
    requires s.log[i].Claimed? && s.log[i].token == s.log[j].token
    ensures i == LastAbout(s.log[..j], s.log[j].id) && s.log[i].id == s.log[j].id
    ensures s.log[i].at <= s.log[j].at < s.log[i].until
  {
    assert SettlesLastClaim(s.log, j);
    var last := LastAbout(s.log[..j], s.log[j].id);
    assert s.log[last].Claimed? && s.log[last].token == s.log[i].token;
  }

  /** Every settlement belongs to a claim of the same message and token, made before it, and it comes
      inside the lease. */
  lemma SettlementHasClaim(s: State, j: nat) returns (i: nat)
    requires Reachable(s) && j < |s.log| && IsSettlement(s.log[j])
    ensures i < j && s.log[i].Claimed? && s.log[i].id == s.log[j].id && s.log[i].token == s.log[j].token
    ensures s.log[i].at <= s.log[j].at < s.log[i].until
  {
    ReachableInv(s);
    assert SettlesLastClaim(s.log, j);
    i := LastAbout(s.log[..j], s.log[j].id);
  }

  /** Fencing: between a claim and its settlement nothing else has happened to the message. So once it
      has been claimed again, settled or requeued, the older token has settled for the last time. */
  lemma NothingBetween(s: State, i: nat, k: nat, j: nat)
    requires Reachable(s) && i < k < j < |s.log| && s.log[i].Claimed?
    requires IsSettlement(s.log[j]) && s.log[j].token == s.log[i].token
    ensures s.log[k].id != s.log[i].id
  {
    ReachableInv(s);
    SettlementOfClaim(s, j, i);
    assert s.log[..j][k] == s.log[k];
  }

  /** A claim is settled at most once. */
  lemma SettledOnce(s: State, i: nat, j: nat)
    requires Reachable(s) && i < |s.log| && j < |s.log|
    requires IsSettlement(s.log[i]) && IsSettlement(s.log[j]) && s.log[i].token == s.log[j].token
    ensures i == j
  {
    if i < j {
      var c := SettlementHasClaim(s, i);
      NothingBetween(s, c, i, j);
    } else if j < i {
      var c := SettlementHasClaim(s, j);
      NothingBetween(s, c, j, i);
    }
  }

  /** The same as an operation: a token whose claim is not the last word on its message changes nothing,
      whoever presents it, and whatever the clock says. */
  lemma StaleTokenRefused(s: State, i: nat, k: nat, worker: string, dead: bool, delayMs: int, error: string)
    requires Reachable(s) && i < k < |s.log| && s.log[i].Claimed? && s.log[k].id == s.log[i].id
    ensures CompleteOne(s, s.log[i].id, s.log[i].token, worker) == s
    ensures FailOne(s, s.log[i].id, s.log[i].token, worker, dead, delayMs, error) == s
  {
    ReachableInv(s);
    var id, token := s.log[i].id, s.log[i].token;
    if id in s.table && s.table[id].claimToken == Some(token) {
      assert RowInv(s, id);
      CurrentClaim(s, id, i);
    }
  }

  /** Ownership periods of successive claims of one message do not overlap, even though a claim's
      timestamp may lie behind the clock. */
  lemma PeriodsDisjoint(s: State, i: nat, j: nat)
    requires Reachable(s) && i < j < |s.log| && s.log[i].Claimed? && s.log[j].Claimed? && s.log[i].id == s.log[j].id
    ensures EndOf(s.log, s.log[i]) <= s.log[j].at
  {
    ReachableInv(s);
  }

  /** Nothing has happened to the message since the claim at `i`, and its lease is running. */
  ghost predicate HoldsLease(s: State, i: nat)
    requires i < |s.log| && s.log[i].Claimed?
  {
    LastAbout(s.log, s.log[i].id) == i && s.clock < s.log[i].until
  }

  lemma LastAboutIs(log: seq<Entry>, id: Id, i: nat)
    requires i < |log| && log[i].id == id && forall k :: i < k < |log| ==> log[k].id != id
    ensures LastAbout(log, id) == i
  {
  }

  lemma LastClaimIsLocked(s: State, i: nat)
    requires Inv(s) && i < |s.log| && s.log[i].Claimed? && LastAbout(s.log, s.log[i].id) == i
    ensures s.log[i].id in s.table && IsLocked(s.table[s.log[i].id]) && LockIsLastClaim(s, s.log[i].id)
  {
    assert s.log[i].id in s.table;
    assert RowInv(s, s.log[i].id);
  }

  /** The columns tested by `complete` and `fail` mean ownership: the guard accepts what a claim
      returned exactly when nothing has happened to the message since and the lease still runs. */
  lemma GuardIsOwnership(s: State, i: nat)
    requires Inv(s) && i < |s.log| && s.log[i].Claimed?
    ensures var c := s.log[i];
            HoldsLease(s, i) <==> c.id in s.table && Owned(s.table[c.id], c.token, c.worker, s.clock)
  {
    var c := s.log[i];
    if LastAbout(s.log, c.id) == i {
      LastClaimIsLocked(s, i);
    } else if c.id in s.table && s.table[c.id].claimToken == Some(c.token) {
      assert RowInv(s, c.id);
      CurrentClaim(s, c.id, i);
    }
  }

  // ----- bounded failures -----

  /** However many leases are lost, at most `maxAttempts` failures (one, when that is not positive) are
      recorded between an append or requeue and the next requeue, and a message is dead-lettered only
      at `maxAttempts` attempts or more. */
  lemma FailuresWithinBound(s: State, id: Id)
    requires Reachable(s) && id in s.table
    ensures FailuresSince(s.log, id) <= Bound(s.maxAttempts)
    ensures s.table[id].deadAt.Some? ==> s.table[id].attempts >= s.maxAttempts
    ensures Pending(s.table[id]) ==> FailuresSince(s.log, id) < Bound(s.maxAttempts)
  {
    ReachableInv(s);
    assert RowInv(s, id);
  }

  /** Every claim of an epoch has been settled, has lost its lease to the next claim, or is the last word. */
  lemma {:induction false} ClaimsSplit(log: seq<Entry>, id: Id)
    requires SettlementsFollow(log) && forall k :: 0 <= k < |log| && log[k].id == id ==> !log[k].Purged?
    ensures ClaimsSince(log, id) ==
            FailuresSince(log, id) + CompletedSince(log, id) + LostSince(log, id) + (if IsOpen(log, id) then 1 else 0)
  {
    if log != [] {
      var n := |log| - 1;
      var e, before := log[n], log[..n];
      SettlementsOfPrefix(log, n);
      ClaimsSplit(before, id);
      if e.id == id && IsSettlement(e) { assert SettlesLastClaim(log, n); }
    }
  }

  lemma SettlementsOfPrefix(log: seq<Entry>, n: nat)
    requires SettlementsFollow(log) && n <= |log|
    ensures SettlementsFollow(log[..n])
  {
    forall j | 0 <= j < n && IsSettlement(log[..n][j]) ensures SettlesLastClaim(log[..n], j) {
      assert SettlesLastClaim(log, j) && log[..n][..j] == log[..j];
    }
  }

  /** What `attempt_count` is made of: recorded failures, a completion, leases lost since the message was
      appended or last requeued, and the claim that is running. */
  lemma AttemptsExactly(s: State, id: Id)
    requires Reachable(s) && id in s.table
    ensures var r := s.table[id];
            r.attempts == FailuresSince(s.log, id) + LostSince(s.log, id)
                          + (if r.processedAt.Some? then 1 else 0) + (if IsLocked(r) then 1 else 0)
  {
    ReachableInv(s);
    assert RowInv(s, id);
    ClaimsSplit(s.log, id);
  }

  /** So lost leases are all that can push it past the bound on failures. */
  lemma AttemptsWithinBound(s: State, id: Id)
    requires Reachable(s) && id in s.table
    ensures LostSince(s.log, id) <= s.table[id].attempts <= Bound(s.maxAttempts) + LostSince(s.log, id)
    ensures LostSince(s.log, id) == 0 ==> s.table[id].attempts <= Bound(s.maxAttempts)
  {
    ReachableInv(s);
    assert RowInv(s, id);
    AttemptsExactly(s, id);
  }

  lemma RunSnoc(s: State, steps: seq<Step>, s1: State, step: Step)
    requires Run(s, steps, s1) && Enabled(s1, step)
    ensures Run(s, steps + [step], Apply(s1, step))
    decreases |steps|
  {
    if steps == [] {
      assert [step][1..] == [];
    } else {
      assert (steps + [step])[1..] == steps[1..] + [step];
      RunSnoc(Apply(s, steps[0]), steps[1..], s1, step);
    }
  }

  lemma ReachOn(s: State, step: Step)
    requires Reachable(s) && Enabled(s, step)
    ensures Reachable(Apply(s, step))
  {
    var s0, steps :| Initial(s0) && Run(s0, steps, s);
    RunSnoc(s0, steps, s, step);
  }

  /** Only message 0 is there, pending, and due at the clock. */
  predicate OneDueMessage(s: State, n: nat) {
    s.table.Keys == {0} && s.table[0].attempts == n && Claimable(s.table[0], s.clock)
  }

  /** `attempt_count` itself has no such bound: with every lease lost it passes any number. */
  lemma {:induction false} AttemptsUnbounded(n: nat, maxAttempts: int) returns (s: State)
    ensures Reachable(s) && s.maxAttempts == maxAttempts && OneDueMessage(s, n)
  {
    if n == 0 {
      var s0 := State(0, map[], 0, [], maxAttempts);
      assert Run(s0, [], s0);
      var step := Append(Event(0, "", 0, 1, 0, Null), 0);
      ReachOn(s0, step);
      s := Apply(s0, step);
    } else {
      var s1 := AttemptsUnbounded(n - 1, maxAttempts);
      s := LoseLease(s1, n - 1);
    }
  }

  lemma LoseLease(s1: State, n: nat) returns (s: State)
    requires Reachable(s1) && OneDueMessage(s1, n)
    ensures Reachable(s) && s.maxAttempts == s1.maxAttempts && OneDueMessage(s, n + 1)
  {
    var claim := Claim([0], 1, 1, "w", s1.clock);
    var rows := ClaimOrder(s1.table, s1.clock);
    assert rows.Keys == {0} && |rows| == |rows.Keys|;
    assert Ids(claim.order) == {0};
    ReachOn(s1, claim);
    var s2 := Apply(s1, claim);
    assert s2 == ClaimAll(ClaimOne(s1, 0, 1, "w", s1.clock), [], 1, "w", s1.clock);
    ReachOn(s2, Tick(s1.clock + 1));
    s := Apply(s2, Tick(s1.clock + 1));
  }

  // ----- conservation -----

  datatype Status = IsPending | IsProcessed | IsDead | IsPurged | Unknown

  ghost function StatusOf(s: State, id: Id): Status {
    if id in s.table then
      (if s.table[id].processedAt.Some? then IsProcessed else if s.table[id].deadAt.Some? then IsDead else IsPending)
    else if exists i :: 0 <= i < |s.log| && s.log[i] == Purged(id) then IsPurged
    else Unknown
  }

  /** Every message ever appended is exactly one of pending, processed, dead-lettered and purged, and
      the columns say so without overlap; finalized messages hold no lock. */
  lemma EveryMessageAccounted(s: State, id: Id)
    requires Reachable(s)
    ensures Appended(id) in s.log <==> StatusOf(s, id) != Unknown
    ensures id in s.table ==> !(s.table[id].processedAt.Some? && s.table[id].deadAt.Some?)
    ensures id in s.table && !Pending(s.table[id]) ==> LockColumns(s.table[id]) && !IsLocked(s.table[id])
    ensures Purged(id) in s.log ==> id !in s.table
  {
    ReachableInv(s);
    if id in s.table { assert RowInv(s, id); }
    if Appended(id) in s.log && id !in s.table {
      assert s.log[LastAbout(s.log, id)] == Purged(id);
    }
  }

  /** A row's status columns and attempt count are what the log says: processed or dead since its last
      entry, and as many attempts as claims since it was appended or last requeued. */
  lemma RowTellsItsHistory(s: State, id: Id)
    requires Reachable(s) && id in s.table
    ensures s.table[id].attempts == ClaimsSince(s.log, id)
    ensures var last := LastAbout(s.log, id); last >= 0 && StatusFollows(s.table[id], s.log[last])
  {
    ReachableInv(s);
    assert RowInv(s, id);
  }

  /** Only finalized messages are ever purged. */
  lemma PurgeTakesFinalized(s: State, step: Step, id: Id)
    requires Reachable(s) && Enabled(s, step) && id in s.table && id !in Apply(s, step).table
    ensures step.Purge?
    ensures var r := s.table[id];
            || (r.processedAt.Some? && r.processedAt.value < step.processedBefore)
            || (r.deadAt.Some? && r.deadAt.value < step.deadBefore)
  {
    match step
    case Claim(order, limit, leaseMs, worker, now) =>
      ClaimOrderInTable(s, order, limit, now);
      ClaimAllRows(s, order, leaseMs, worker, now);
    case Purge(victims, _, processedBefore, deadBefore) =>
      PurgeAllTable(s, victims);
      assert id in PurgeOrder(s.table, processedBefore, deadBefore).Keys;
    case _ =>
  }

  lemma ProcessedRow(s: State, id: Id)
    requires Inv(s) && id in s.table && s.table[id].processedAt.Some?
    ensures !IsLocked(s.table[id]) && Appended(id) in s.log
  {
    assert RowInv(s, id);
  }

  /** Processed is final: until it is purged, no step changes the row of a processed message. So once
      `complete` has committed, the fallback `fail` after a lost reply cannot undo it. */
  lemma ProcessedIsFinal(s: State, step: Step, id: Id)
    requires Reachable(s) && Enabled(s, step) && id in s.table && s.table[id].processedAt.Some?
    ensures id in Apply(s, step).table ==> Apply(s, step).table[id] == s.table[id]
    ensures id !in Apply(s, step).table ==> step.Purge?
  {
    ReachableInv(s);
    ProcessedRow(s, id);
    ProcessedStays(s, step, id);
  }

  lemma ProcessedStays(s: State, step: Step, id: Id)
    requires Enabled(s, step) && id in s.table && s.table[id].processedAt.Some?
    requires !IsLocked(s.table[id]) && Appended(id) in s.log
    ensures id in Apply(s, step).table ==> Apply(s, step).table[id] == s.table[id]
    ensures id !in Apply(s, step).table ==> step.Purge?
  {
    match step
    case Append(e, now) => assert e.id != id;
    case Claim(order, limit, leaseMs, worker, now) =>
      ClaimOrderInTable(s, order, limit, now);
      ClaimAllRows(s, order, leaseMs, worker, now);
    case Purge(victims, _, _, _) => PurgeAllTable(s, victims);
    case _ =>
  }

  // ----- what batches do to the table -----

  lemma {:induction false} PurgeAllTable(s: State, victims: set<Id>)
    ensures PurgeAll(s, victims).table == s.table - victims
    ensures PurgeAll(s, victims).clock == s.clock && PurgeAll(s, victims).maxAttempts == s.maxAttempts
    ensures PurgeAll(s, victims).nextToken == s.nextToken
    decreases victims
  {
    if victims != {} {
      var id :| id in victims && PurgeAll(s, victims) == PurgeAll(PurgeOne(s, id), victims - {id});
      PurgeAllTable(PurgeOne(s, id), victims - {id});
      assert (s.table - {id}) - (victims - {id}) == s.table - victims;
    }
  }

  /** A row as `claim` leaves it: locked, one attempt more, otherwise the same. */
  predicate IsClaimOf(r': Row, r: Row, worker: string, now: int, leaseMs: int) {
    r'.claimToken.Some? && r' == ClaimedRow(r, r'.claimToken.value, worker, now, leaseMs)
  }

  lemma {:induction false} ClaimAllRows(s: State, order: seq<Id>, leaseMs: int, worker: string, now: int)
    requires Distinct(order) && forall id :: id in order ==> id in s.table
    ensures var s' := ClaimAll(s, order, leaseMs, worker, now);
            && s'.table.Keys == s.table.Keys && s'.clock == s.clock && s'.maxAttempts == s.maxAttempts
            && (forall id :: id in s.table && id !in order ==> s'.table[id] == s.table[id])
            && (forall id :: id in order ==> IsClaimOf(s'.table[id], s.table[id], worker, now, leaseMs))
    decreases |order|
  {
    if order != [] {
      var s1 := ClaimOne(s, order[0], leaseMs, worker, now);
      assert s1.table.Keys == s.table.Keys;
      forall id | id in order[1..] ensures id in order && id != order[0] {}
      ClaimAllRows(s1, order[1..], leaseMs, worker, now);
      assert order == [order[0]] + order[1..];
    }
  }
}
