/** Every step of the outbox machine keeps its invariant. */
module OutboxSafety {
  import opened Prelude
  import opened OutboxMachine

  // ----- reading a log that grew by one entry -----

  lemma LastAboutGrown(log: seq<Entry>, e: Entry, id: Id)
    ensures LastAbout(log + [e], id) == if e.id == id then |log| else LastAbout(log, id)
  {
    assert (log + [e])[..|log|] == log;
  }

  lemma SettledAtGrown(log: seq<Entry>, e: Entry, token: Token)
    ensures SettledAt(log + [e], token) == if IsSettlement(e) && e.token == token then Some(e.at) else SettledAt(log, token)
  {
    assert (log + [e])[..|log|] == log;
  }

  lemma FailuresGrown(log: seq<Entry>, e: Entry, id: Id)
    ensures FailuresSince(log + [e], id) ==
            if e.id != id then FailuresSince(log, id)
            else if e.Appended? || e.Requeued? then 0
            else if e.Failed? then 1 + FailuresSince(log, id)
            else FailuresSince(log, id)
    ensures ClaimsSince(log + [e], id) ==
            if e.id != id then ClaimsSince(log, id)
            else if e.Appended? || e.Requeued? then 0
            else if e.Claimed? then 1 + ClaimsSince(log, id)
            else ClaimsSince(log, id)
    ensures CompletedSince(log + [e], id) ==
            if e.id != id then CompletedSince(log, id)
            else if e.Appended? || e.Requeued? then 0
            else if e.Completed? then 1 + CompletedSince(log, id)
            else CompletedSince(log, id)
  {
    assert (log + [e])[..|log|] == log;
  }

  /** A settlement never lengthens an ownership period. */
  ghost predicate ShortensPeriods(log: seq<Entry>, e: Entry) {
    IsSettlement(e) ==> forall i :: 0 <= i < |log| && log[i].Claimed? && log[i].token == e.token ==> e.at <= EndOf(log, log[i])
  }

  lemma EndOfGrown(log: seq<Entry>, e: Entry, i: nat)
    requires ShortensPeriods(log, e) && i < |log| && log[i].Claimed?
    ensures EndOf(log + [e], log[i]) <= EndOf(log, log[i])
  {
    SettledAtGrown(log, e, log[i].token);
  }

  // ----- one row changes, with one entry about it -----

  /** From `s` to `s'` one entry is logged, and rows of other messages stay. */
  ghost predicate OneEntry(s: State, s': State, e: Entry) {
    && s'.log == s.log + [e] && s'.clock == s.clock && s'.maxAttempts == s.maxAttempts && s.nextToken <= s'.nextToken
    && (forall id :: id != e.id ==> (id in s'.table <==> id in s.table))
    && (forall id :: id in s.table && id != e.id ==> s'.table[id] == s.table[id])
    && ShortensPeriods(s.log, e)
    && (IsSettlement(e) ==> e.id in s.table && s.table[e.id].claimToken == Some(e.token))
  }

  lemma OtherLock(s: State, s': State, e: Entry, id: Id)
    requires OneEntry(s, s', e) && id in s.table && id != e.id && TokensUnique(s)
    requires LockIsLastClaim(s, id)
    ensures LockIsLastClaim(s', id)
  {
    LastAboutGrown(s.log, e, id);
    if IsLocked(s.table[id]) { SettledAtGrown(s.log, e, s.table[id].claimToken.value); }
  }

  lemma OtherPeriods(s: State, s': State, e: Entry, id: Id)
    requires OneEntry(s, s', e) && id in s.table && id != e.id && OldPeriodsOver(s, id)
    ensures OldPeriodsOver(s', id)
  {
    forall i | 0 <= i < |s'.log| && s'.log[i].Claimed? && s'.log[i].id == id && s'.table[id].claimToken != Some(s'.log[i].token)
      ensures EndOf(s'.log, s'.log[i]) <= Floor(s', s'.table[id])
    {
      EndOfGrown(s.log, e, i);
    }
  }

  lemma OtherRow(s: State, s': State, e: Entry, id: Id)
    requires OneEntry(s, s', e) && id in s.table && id != e.id && TokensUnique(s)
    requires RowInv(s, id)
    ensures RowInv(s', id)
  {
    OtherLock(s, s', e, id);
    OtherPeriods(s, s', e, id);
    FailuresGrown(s.log, e, id);
  }

  lemma PeriodsGrown(s: State, s': State, e: Entry)
    requires OneEntry(s, s', e) && PeriodsApart(s.log)
    requires e.Claimed? ==> forall i :: 0 <= i < |s.log| && s.log[i].Claimed? && s.log[i].id == e.id ==> EndOf(s.log, s.log[i]) <= e.at
    ensures PeriodsApart(s'.log)
  {
    forall i, j | 0 <= i < j < |s'.log| && s'.log[i].Claimed? && s'.log[j].Claimed? && s'.log[i].id == s'.log[j].id
      ensures EndOf(s'.log, s'.log[i]) <= s'.log[j].at
    {
      EndOfGrown(s.log, e, i);
    }
  }

  lemma SettlementsGrown(log: seq<Entry>, e: Entry)
    requires SettlementsFollow(log)
    requires IsSettlement(e) ==>
               var last := LastAbout(log, e.id);
               last >= 0 && log[last].Claimed? && log[last].token == e.token && log[last].at <= e.at < log[last].until
    ensures SettlementsFollow(log + [e])
  {
    var l := log + [e];
    forall j | 0 <= j < |l| && IsSettlement(l[j]) ensures SettlesLastClaim(l, j) {
      if j < |log| {
        assert l[..j] == log[..j];
        assert SettlesLastClaim(log, j);
      } else {
        assert l[..j] == log;
      }
    }
  }

  lemma ConservedGrown(s: State, s': State, e: Entry)
    requires OneEntry(s, s', e) && Conserved(s)
    requires if e.Purged? then e.id !in s'.table else e.id in s'.table
    requires e.Appended? || e.id in s.table
    requires e.Appended? ==> FreshId(s, e.id)
    ensures Conserved(s')
  {
    assert s'.log[|s.log|] == e;
    forall i | 0 <= i < |s'.log| ensures Appended(s'.log[i].id) in s'.log {
      assert Appended(e.id) in s'.log;
      if i < |s.log| { assert Appended(s.log[i].id) in s.log; }
    }
    forall i | 0 <= i < |s'.log| ensures s'.log[i].id in s'.table || s'.log[LastAbout(s'.log, s'.log[i].id)].Purged? {
      LastAboutGrown(s.log, e, s'.log[i].id);
    }
    forall i | 0 <= i < |s'.log| && s'.log[i].Purged? ensures s'.log[i].id !in s'.table {}
  }

  lemma TokensGrown(s: State, s': State, e: Entry)
    requires OneEntry(s, s', e) && TokensUnique(s) && !e.Claimed? && s'.nextToken == s.nextToken
    requires e.id in s'.table ==> !IsLocked(s'.table[e.id])
    ensures TokensUnique(s')
  {
  }

  lemma ClaimTokensGrown(s: State, s': State, e: Entry)
    requires OneEntry(s, s', e) && TokensUnique(s) && e.Claimed? && e.token == s.nextToken && s'.nextToken == s.nextToken + 1
    requires e.id in s'.table && s'.table[e.id].claimToken == Some(e.token)
    ensures TokensUnique(s')
  {
  }

  lemma TimesGrown(s: State, s': State, e: Entry)
    requires OneEntry(s, s', e) && TimesPast(s)
    requires e.Claimed? || IsSettlement(e) || e.Requeued? ==> e.at <= s.clock
    ensures TimesPast(s')
  {
  }

  /** What an entry must satisfy to extend the log. */
  ghost predicate Fits(s: State, e: Entry) {
    match e
    case Appended(id) => FreshId(s, id)
    case Claimed(id, token, _, at, _, _) =>
      && id in s.table && token == s.nextToken && at <= s.clock
      && forall i :: 0 <= i < |s.log| && s.log[i].Claimed? && s.log[i].id == id ==> EndOf(s.log, s.log[i]) <= at
    case Requeued(id, at) => id in s.table && at <= s.clock
    case Purged(id) => id in s.table
    case _ =>
      var last := LastAbout(s.log, e.id);
      && e.id in s.table && e.at <= s.clock
      && last >= 0 && s.log[last].Claimed? && s.log[last].token == e.token && s.log[last].at <= e.at < s.log[last].until
  }

  /** What the row the entry is about must satisfy afterwards. */
  ghost predicate RowFits(s: State, s': State, e: Entry) {
    if e.Purged? then e.id !in s'.table
    else
      && e.id in s'.table && RowInv(s', e.id)
      && if e.Claimed? then s'.table[e.id].claimToken == Some(e.token) && s'.nextToken == s.nextToken + 1
         else !IsLocked(s'.table[e.id])
  }

  lemma OtherRows(s: State, s': State, e: Entry)
    requires OneEntry(s, s', e) && TokensUnique(s) && RowsInv(s) && RowFits(s, s', e)
    ensures RowsInv(s')
  {
    forall id | id in s'.table ensures RowInv(s', id) {
      if id != e.id {
        assert RowInv(s, id);
        OtherRow(s, s', e, id);
      }
    }
  }

  lemma EntryKeepsLog(s: State, s': State, e: Entry)
    requires SettlementsFollow(s.log) && PeriodsApart(s.log) && TimesPast(s) && OneEntry(s, s', e) && Fits(s, e)
    ensures SettlementsFollow(s'.log) && PeriodsApart(s'.log) && TimesPast(s')
  {
    SettlementsGrown(s.log, e);
    PeriodsGrown(s, s', e);
    TimesGrown(s, s', e);
  }

  lemma EntryKeepsTokens(s: State, s': State, e: Entry)
    requires TokensUnique(s) && Conserved(s) && OneEntry(s, s', e) && Fits(s, e) && RowFits(s, s', e)
    requires !e.Claimed? ==> s'.nextToken == s.nextToken
    ensures TokensUnique(s') && Conserved(s')
  {
    ConservedGrown(s, s', e);
    if e.Claimed? { ClaimTokensGrown(s, s', e); } else { TokensGrown(s, s', e); }
  }

  /** It is enough to look at the row the entry is about. */
  lemma EntryKeeps(s: State, s': State, e: Entry)
    requires Inv(s) && OneEntry(s, s', e) && Fits(s, e) && RowFits(s, s', e)
    requires !e.Claimed? ==> s'.nextToken == s.nextToken
    ensures Inv(s')
  {
    OtherRows(s, s', e);
    EntryKeepsLog(s, s', e);
    EntryKeepsTokens(s, s', e);
  }

  // ----- the steps -----

  lemma AppendRow(s: State, ev: Event, now: int)
    requires FreshId(s, ev.id)
    ensures var e, s' := Appended(ev.id), SetRow(s, ev.id, NewRow(ev, now), Appended(ev.id));
            OneEntry(s, s', e) && Fits(s, e) && RowFits(s, s', e)
  {
    LastAboutGrown(s.log, Appended(ev.id), ev.id);
    FailuresGrown(s.log, Appended(ev.id), ev.id);
  }

  lemma AppendKeeps(s: State, ev: Event, now: int)
    requires Inv(s) && FreshId(s, ev.id)
    ensures Inv(SetRow(s, ev.id, NewRow(ev, now), Appended(ev.id)))
  {
    AppendRow(s, ev, now);
    EntryKeeps(s, SetRow(s, ev.id, NewRow(ev, now), Appended(ev.id)), Appended(ev.id));
  }

  /** The current claim of a locked row is the only claim with its token. */
  lemma CurrentClaim(s: State, id: Id, i: nat)
    requires id in s.table && LockIsLastClaim(s, id) && IsLocked(s.table[id]) && TokensUnique(s)
    requires i < |s.log| && s.log[i].Claimed? && s.log[i].token == s.table[id].claimToken.value
    ensures i == LastAbout(s.log, id) && EndOf(s.log, s.log[i]) == s.table[id].lockedUntil.value
    ensures s.log[i].attempt == s.table[id].attempts && s.log[i].at == s.table[id].lockedAt.value
  {
    var last := LastAbout(s.log, id);
    assert s.log[last].Claimed? && s.log[last].token == s.log[i].token;
  }

  /** A claimable row's ownership periods are all over. */
  lemma ClaimAfterPeriods(s: State, id: Id, now: int)
    requires id in s.table && RowInv(s, id) && TokensUnique(s) && Claimable(s.table[id], now)
    ensures forall i :: 0 <= i < |s.log| && s.log[i].Claimed? && s.log[i].id == id ==> EndOf(s.log, s.log[i]) <= now
  {
    var r := s.table[id];
    forall i | 0 <= i < |s.log| && s.log[i].Claimed? && s.log[i].id == id ensures EndOf(s.log, s.log[i]) <= now {
      if r.claimToken == Some(s.log[i].token) {
        CurrentClaim(s, id, i);
      } else {
        assert EndOf(s.log, s.log[i]) <= Floor(s, r);
      }
    }
  }

  lemma ClaimOneRow(s: State, id: Id, leaseMs: int, worker: string, now: int)
    requires id in s.table && RowInv(s, id) && TokensUnique(s) && Claimable(s.table[id], now) && leaseMs > 0
    ensures RowInv(ClaimOne(s, id, leaseMs, worker, now), id)
  {
    var s' := ClaimOne(s, id, leaseMs, worker, now);
    var e := s'.log[|s.log|];
    LastAboutGrown(s.log, e, id);
    SettledAtGrown(s.log, e, s.nextToken);
    FailuresGrown(s.log, e, id);
    ClaimAfterPeriods(s, id, now);
    forall i | 0 <= i < |s'.log| && s'.log[i].Claimed? && s'.log[i].id == id && s'.table[id].claimToken != Some(s'.log[i].token)
      ensures EndOf(s'.log, s'.log[i]) <= Floor(s', s'.table[id])
    {
      EndOfGrown(s.log, e, i);
    }
  }

  lemma ClaimOneFits(s: State, id: Id, leaseMs: int, worker: string, now: int)
    requires id in s.table && RowInv(s, id) && TokensUnique(s) && Claimable(s.table[id], now) && leaseMs > 0 && now <= s.clock
    ensures var s' := ClaimOne(s, id, leaseMs, worker, now);
            |s'.log| == |s.log| + 1 && s'.log[|s.log|].Claimed?
            && OneEntry(s, s', s'.log[|s.log|]) && Fits(s, s'.log[|s.log|]) && RowFits(s, s', s'.log[|s.log|])
  {
    ClaimOneRow(s, id, leaseMs, worker, now);
    ClaimAfterPeriods(s, id, now);
  }

  lemma ClaimOneKeeps(s: State, id: Id, leaseMs: int, worker: string, now: int)
    requires Inv(s) && id in s.table && Claimable(s.table[id], now) && leaseMs > 0 && now <= s.clock
    ensures Inv(ClaimOne(s, id, leaseMs, worker, now))
  {
    assert RowInv(s, id);
    ClaimOneFits(s, id, leaseMs, worker, now);
    var s' := ClaimOne(s, id, leaseMs, worker, now);
    EntryKeeps(s, s', s'.log[|s.log|]);
  }

  /** Claiming one row leaves the other candidates claimable. */
  lemma OthersStillClaimable(s: State, order: seq<Id>, leaseMs: int, worker: string, now: int)
    requires order != [] && Distinct(order)
    requires forall id :: id in order ==> id in s.table && Claimable(s.table[id], now)
    ensures var s' := ClaimOne(s, order[0], leaseMs, worker, now);
            Distinct(order[1..]) && forall id :: id in order[1..] ==> id in s'.table && Claimable(s'.table[id], now)
  {
    forall id | id in order[1..] ensures id in order && id != order[0] {}
  }

  lemma {:induction false} ClaimAllKeeps(s: State, order: seq<Id>, leaseMs: int, worker: string, now: int)
    requires Inv(s) && Distinct(order) && leaseMs > 0 && now <= s.clock
    requires forall id :: id in order ==> id in s.table && Claimable(s.table[id], now)
    ensures Inv(ClaimAll(s, order, leaseMs, worker, now))
    decreases |order|
  {
    if order != [] {
      assert order[0] in order;
      OthersStillClaimable(s, order, leaseMs, worker, now);
      ClaimOneKeeps(s, order[0], leaseMs, worker, now);
      ClaimAllKeeps(ClaimOne(s, order[0], leaseMs, worker, now), order[1..], leaseMs, worker, now);
    }
  }

  /** What a settlement by the current owner does to the log. */
  lemma SettlementFacts(s: State, id: Id, token: Token, worker: string, e: Entry)
    requires TokensUnique(s) && TimesPast(s) && id in s.table && RowInv(s, id) && Owned(s.table[id], token, worker, s.clock)
    requires IsSettlement(e) && e.id == id && e.token == token && e.at == s.clock
    ensures Fits(s, e) && ShortensPeriods(s.log, e)
    ensures forall i :: 0 <= i < |s.log| && s.log[i].Claimed? && s.log[i].id == id ==> EndOf(s.log + [e], s.log[i]) <= s.clock
  {
    forall i | 0 <= i < |s.log| && s.log[i].Claimed? && s.log[i].token == token ensures s.clock <= EndOf(s.log, s.log[i]) {
      CurrentClaim(s, id, i);
    }
    forall i | 0 <= i < |s.log| && s.log[i].Claimed? && s.log[i].id == id ensures EndOf(s.log + [e], s.log[i]) <= s.clock {
      SettledAtGrown(s.log, e, s.log[i].token);
      if s.log[i].token != token {
        assert EndOf(s.log, s.log[i]) <= Floor(s, s.table[id]);
        assert s.log[LastAbout(s.log, id)].at <= s.clock;
      }
    }
  }

  /** A row released at the clock, or later, has all its periods behind it. */
  lemma ReleasedRow(s: State, s': State, e: Entry)
    requires OneEntry(s, s', e) && !e.Claimed? && e.id in s'.table && s'.table[e.id].event.id == e.id
    requires RowShape(s'.table[e.id]) && !IsLocked(s'.table[e.id]) && StatusFollows(s'.table[e.id], e) && s.clock <= Floor(s', s'.table[e.id])
    requires forall i :: 0 <= i < |s.log| && s.log[i].Claimed? && s.log[i].id == e.id ==> EndOf(s'.log, s.log[i]) <= s.clock
    requires FailuresBounded(s', e.id)
    ensures RowInv(s', e.id)
  {
    LastAboutGrown(s.log, e, e.id);
  }

  lemma CompleteRow(s: State, id: Id, token: Token, worker: string)
    requires TokensUnique(s) && TimesPast(s) && id in s.table && RowInv(s, id) && Owned(s.table[id], token, worker, s.clock)
    ensures var e, s' := Completed(id, token, s.clock), CompleteOne(s, id, token, worker);
            OneEntry(s, s', e) && Fits(s, e) && RowFits(s, s', e)
  {
    var e := Completed(id, token, s.clock);
    SettlementFacts(s, id, token, worker, e);
    FailuresGrown(s.log, e, id);
    ReleasedRow(s, CompleteOne(s, id, token, worker), e);
  }

  lemma CompleteKeeps(s: State, id: Id, token: Token, worker: string)
    requires Inv(s)
    ensures Inv(CompleteOne(s, id, token, worker))
  {
    if id in s.table && Owned(s.table[id], token, worker, s.clock) {
      assert RowInv(s, id);
      CompleteRow(s, id, token, worker);
      EntryKeeps(s, CompleteOne(s, id, token, worker), Completed(id, token, s.clock));
    }
  }

  /** The attempt a worker knows from its claim is the row's. */
  lemma KnownAttempt(s: State, id: Id, token: Token, worker: string, attempt: nat)
    requires id in s.table && LockIsLastClaim(s, id) && TokensUnique(s)
    requires KnowsClaim(s.log, id, token, worker, attempt) && s.table[id].claimToken == Some(token)
    ensures attempt == s.table[id].attempts
  {
    var i :| 0 <= i < |s.log| && s.log[i].Claimed? && s.log[i].token == token && s.log[i].attempt == attempt;
    CurrentClaim(s, id, i);
  }

  lemma FailRow(s: State, id: Id, token: Token, worker: string, attempt: nat, delayMs: int, error: string)
    requires TokensUnique(s) && TimesPast(s) && id in s.table && RowInv(s, id) && Owned(s.table[id], token, worker, s.clock)
    requires attempt == s.table[id].attempts && delayMs >= 1
    ensures var dead := attempt >= s.maxAttempts;
            var e, s' := Failed(id, token, s.clock, dead, s.clock + delayMs, error), FailOne(s, id, token, worker, dead, delayMs, error);
            OneEntry(s, s', e) && Fits(s, e) && RowFits(s, s', e)
  {
    var dead := attempt >= s.maxAttempts;
    var e := Failed(id, token, s.clock, dead, s.clock + delayMs, error);
    SettlementFacts(s, id, token, worker, e);
    FailuresGrown(s.log, e, id);
    ReleasedRow(s, FailOne(s, id, token, worker, dead, delayMs, error), e);
  }

  lemma FailKeeps(s: State, id: Id, token: Token, worker: string, attempt: nat, delayMs: int, error: string)
    requires Inv(s) && KnowsClaim(s.log, id, token, worker, attempt) && delayMs >= 1
    ensures Inv(FailOne(s, id, token, worker, attempt >= s.maxAttempts, delayMs, error))
  {
    if id in s.table && Owned(s.table[id], token, worker, s.clock) {
      assert RowInv(s, id);
      KnownAttempt(s, id, token, worker, attempt);
      FailRow(s, id, token, worker, attempt, delayMs, error);
      EntryKeeps(s, FailOne(s, id, token, worker, attempt >= s.maxAttempts, delayMs, error),
                 Failed(id, token, s.clock, attempt >= s.maxAttempts, s.clock + delayMs, error));
    }
  }

  lemma RequeueRow(s: State, id: Id)
    requires TimesPast(s) && IsDeadLetter(s, id) && RowInv(s, id)
    ensures var e, s' := Requeued(id, s.clock), RequeueOne(s, id);
            OneEntry(s, s', e) && Fits(s, e) && RowFits(s, s', e)
  {
    var e, s' := Requeued(id, s.clock), RequeueOne(s, id);
    FailuresGrown(s.log, e, id);
    forall i | 0 <= i < |s.log| && s.log[i].Claimed? && s.log[i].id == id ensures EndOf(s'.log, s.log[i]) <= s.clock {
      EndOfGrown(s.log, e, i);
    }
    ReleasedRow(s, s', e);
  }

  lemma RequeueKeeps(s: State, id: Id)
    requires Inv(s)
    ensures Inv(RequeueOne(s, id))
  {
    if IsDeadLetter(s, id) {
      assert RowInv(s, id);
      RequeueRow(s, id);
      EntryKeeps(s, RequeueOne(s, id), Requeued(id, s.clock));
    }
  }

  lemma PurgeOneKeeps(s: State, id: Id)
    requires Inv(s) && id in s.table
    ensures Inv(PurgeOne(s, id))
  {
    PurgeFits(s, id);
    EntryKeeps(s, PurgeOne(s, id), Purged(id));
  }

  lemma PurgeFits(s: State, id: Id)
    requires id in s.table
    ensures OneEntry(s, PurgeOne(s, id), Purged(id)) && Fits(s, Purged(id)) && RowFits(s, PurgeOne(s, id), Purged(id))
  {
  }

  lemma {:induction false} PurgeAllKeeps(s: State, victims: set<Id>)
    requires Inv(s) && victims <= s.table.Keys
    ensures Inv(PurgeAll(s, victims))
    decreases victims
  {
    if victims != {} {
      var id :| id in victims && PurgeAll(s, victims) == PurgeAll(PurgeOne(s, id), victims - {id});
      PurgeOneKeeps(s, id);
      PurgeAllKeeps(PurgeOne(s, id), victims - {id});
    }
  }

  lemma TickKeeps(s: State, to: int)
    requires Inv(s) && to >= s.clock
    ensures Inv(s.(clock := to))
  {
    var s' := s.(clock := to);
    forall id | id in s'.table ensures RowInv(s', id) { assert RowInv(s, id); }
  }

  lemma StepKeeps(s: State, step: Step)
    requires Inv(s) && Enabled(s, step)
    ensures Inv(Apply(s, step))
  {
    match step
    case Tick(to) => TickKeeps(s, to);
    case Append(e, now) => AppendKeeps(s, e, now);
    case Claim(order, limit, leaseMs, worker, now) =>
      ClaimOrderInTable(s, order, limit, now);
      ClaimAllKeeps(s, order, leaseMs, worker, now);
    case Complete(id, token, worker) => CompleteKeeps(s, id, token, worker);
    case Fail(id, token, worker, attempt, delayMs, error) => FailKeeps(s, id, token, worker, attempt, delayMs, error);
    case Requeue(id) => RequeueKeeps(s, id);
    case Purge(victims, _, _, _) => PurgeAllKeeps(s, victims);
  }

  lemma {:induction false} RunKeeps(s: State, steps: seq<Step>, s': State)
    requires Inv(s) && Run(s, steps, s')
    ensures Inv(s')
    decreases |steps|
  {
    if steps != [] {
      StepKeeps(s, steps[0]);
      RunKeeps(Apply(s, steps[0]), steps[1..], s');
    }
  }
}
