/** `PostgresOutboxStore`: each statement of the original against the table. */
module OutboxStore {
  import opened Prelude
  import opened OutboxMachine
  import opened OutboxSafety
  import opened OutboxGuarantees
  import JsonGraph
  import JsonWalkers

  /** Whether a statement reaches the database, and whether its reply comes back. */
  datatype Reply = Arrives | Lost | NeverSent

  datatype StoreError = LostOwnership | NoReply | NotDurableJson | DuplicateKey | CheckViolation

  datatype ClaimedMessage = ClaimedMessage(event: Event, claimToken: Token, attemptCount: nat)

  datatype Stats = Stats(pendingCount: nat, deadLetterCount: nat, oldestPendingAt: Option<int>)

  // ----- histories of the shared table -----

  /** Time passes and the log grows; nothing logged is ever taken back. */
  ghost predicate Later(s: State, s': State) {
    s.clock <= s'.clock && s.log <= s'.log && s'.maxAttempts == s.maxAttempts && s.nextToken <= s'.nextToken
  }

  lemma {:induction false} ClaimAllLater(s: State, order: seq<Id>, leaseMs: int, worker: string, now: int)
    requires forall id :: id in order ==> id in s.table
    ensures Later(s, ClaimAll(s, order, leaseMs, worker, now))
    decreases |order|
  {
    if order != [] { ClaimAllLater(ClaimOne(s, order[0], leaseMs, worker, now), order[1..], leaseMs, worker, now); }
  }

  lemma {:induction false} PurgeAllLater(s: State, victims: set<Id>)
    ensures Later(s, PurgeAll(s, victims))
    decreases victims
  {
    if victims != {} {
      var id :| id in victims && PurgeAll(s, victims) == PurgeAll(PurgeOne(s, id), victims - {id});
      PurgeAllLater(PurgeOne(s, id), victims - {id});
    }
  }

  lemma StepLater(s: State, step: Step)
    requires Enabled(s, step)
    ensures Later(s, Apply(s, step))
  {
    match step
    case Claim(order, limit, leaseMs, worker, now) =>
      ClaimOrderInTable(s, order, limit, now);
      ClaimAllLater(s, order, leaseMs, worker, now);
    case Purge(victims, _, _, _) => PurgeAllLater(s, victims);
    case _ =>
  }

  // ----- what a claim returns -----

  /** The log entry of the claim that returned this message. */
  function ClaimEntry(m: ClaimedMessage, worker: string, now: int, leaseMs: int): Entry {
    Claimed(m.event.id, m.claimToken, worker, now, now + leaseMs, m.attemptCount)
  }

  function Entries(messages: seq<ClaimedMessage>, worker: string, now: int, leaseMs: int): (r: seq<Entry>)
    ensures |r| == |messages|
    ensures forall k :: 0 <= k < |r| ==> r[k] == ClaimEntry(messages[k], worker, now, leaseMs)
  {
    seq(|messages|, k requires 0 <= k < |messages| => ClaimEntry(messages[k], worker, now, leaseMs))
  }

  lemma EntriesSnoc(messages: seq<ClaimedMessage>, m: ClaimedMessage, worker: string, now: int, leaseMs: int)
    ensures Entries(messages + [m], worker, now, leaseMs)
         == Entries(messages, worker, now, leaseMs) + [ClaimEntry(m, worker, now, leaseMs)]
  {
  }

  lemma RestDistinct(order: seq<Id>, i: nat)
    requires Distinct(order) && i < |order|
    ensures order[i] in order[i..] && order[i] !in order[i + 1..]
    ensures forall id :: id in order[i + 1..] ==> id in order[i..]
  {
    assert order[i..] == [order[i]] + order[i + 1..];
  }

  lemma ClaimNext(s: State, order: seq<Id>, i: nat, leaseMs: int, worker: string, now: int)
    requires i < |order| && forall id :: id in order[i..] ==> id in s.table
    ensures order[i] in s.table && forall id :: id in order[i + 1..] ==> id in s.table
    ensures ClaimAll(s, order[i..], leaseMs, worker, now)
         == ClaimAll(ClaimOne(s, order[i], leaseMs, worker, now), order[i + 1..], leaseMs, worker, now)
  {
    assert order[i..] == [order[i]] + order[i + 1..];
  }

  function IdsOf(messages: seq<ClaimedMessage>): (r: seq<Id>)
    ensures |r| == |messages| && forall k :: 0 <= k < |r| ==> r[k] == messages[k].event.id
  {
    seq(|messages|, k requires 0 <= k < |messages| => messages[k].event.id)
  }

  predicate Selected(t: Table, event: Event) {
    event.id in t && t[event.id].event == event
  }

  /** One claim of the machine, logged message by message, with the events of the table. */
  ghost predicate Claims(s: State, s': State, claimed: seq<ClaimedMessage>, batchSize: nat, leaseMs: int, worker: string, now: int) {
    && Enabled(s, Claim(IdsOf(claimed), batchSize, leaseMs, worker, now))
    && s' == Apply(s, Claim(IdsOf(claimed), batchSize, leaseMs, worker, now))
    && s'.log == s.log + Entries(claimed, worker, now, leaseMs)
    && forall k :: 0 <= k < |claimed| ==> Selected(s.table, claimed[k].event)
  }

  /** One purge of the machine. */
  ghost predicate Purges(s: State, s': State, victims: set<Id>, limit: nat, processedBefore: int, deadBefore: int) {
    && Enabled(s, Purge(victims, limit, processedBefore, deadBefore))
    && s' == Apply(s, Purge(victims, limit, processedBefore, deadBefore))
  }

  lemma LaterSelf(s: State)
    ensures Later(s, s)
  {
  }

  method Listed(ids: set<Id>) returns (order: seq<Id>)
    ensures Distinct(order) && Ids(order) == ids
  {
    order := [];
    var rest := ids;
    while rest != {}
      invariant Distinct(order) && rest <= ids && Ids(order) == ids - rest
      decreases rest
    {
      var id :| id in rest;
      assert id !in Ids(order);
      rest := rest - {id};
      assert Ids(order + [id]) == Ids(order) + {id};
      order := order + [id];
    }
  }

  // ----- statistics -----

  ghost function PendingIds(t: Table): set<Id> { set id | id in t && Pending(t[id]) }
  ghost function DeadIds(t: Table): set<Id> { set id | id in t && t[id].deadAt.Some? }
  ghost function ProcessedIds(t: Table): set<Id> { set id | id in t && t[id].processedAt.Some? }

  /** The counts partition the table: nothing is counted twice and nothing is missed. */
  lemma CountsPartition(s: State)
    requires Reachable(s)
    ensures |PendingIds(s.table)| + |DeadIds(s.table)| + |ProcessedIds(s.table)| == |s.table|
  {
    var pending, dead, processed := PendingIds(s.table), DeadIds(s.table), ProcessedIds(s.table);
    forall id | id in s.table ensures !(s.table[id].processedAt.Some? && s.table[id].deadAt.Some?) {
      EveryMessageAccounted(s, id);
    }
    assert pending + dead + processed == s.table.Keys;
    assert |s.table| == |s.table.Keys|;
    assert pending !! dead && (pending + dead) !! processed;
  }

  predicate EarliestPending(t: Table, at: Option<int>) {
    match at
    case None => forall id :: id in t ==> !Pending(t[id])
    case Some(v) =>
      && (exists id :: id in t && Pending(t[id]) && t[id].event.occurredAt == v)
      && (forall id :: id in t && Pending(t[id]) ==> v <= t[id].event.occurredAt)
  }

  function Earlier(oldest: Option<int>, row: Row): Option<int> {
    if Pending(row) && (oldest.None? || row.event.occurredAt < oldest.value) then Some(row.event.occurredAt) else oldest
  }

  lemma EarlierPending(seen: Table, id: Id, row: Row, oldest: Option<int>)
    requires id !in seen && EarliestPending(seen, oldest)
    ensures EarliestPending(seen[id := row], Earlier(oldest, row))
  {
    var t := seen[id := row];
    assert t[id] == row;
    if Earlier(oldest, row) == oldest && oldest.Some? {
      var k :| k in seen && Pending(seen[k]) && seen[k].event.occurredAt == oldest.value;
      assert t[k] == seen[k];
    }
  }

  lemma OneMorePending(seen: Table, id: Id, row: Row)
    requires id !in seen
    ensures |PendingIds(seen[id := row])| == |PendingIds(seen)| + if Pending(row) then 1 else 0
  {
    assert PendingIds(seen[id := row]) == PendingIds(seen) + if Pending(row) then {id} else {};
  }

  lemma OneMoreDead(seen: Table, id: Id, row: Row)
    requires id !in seen
    ensures |DeadIds(seen[id := row])| == |DeadIds(seen)| + if row.deadAt.Some? then 1 else 0
  {
    assert DeadIds(seen[id := row]) == DeadIds(seen) + if row.deadAt.Some? then {id} else {};
  }

  lemma EventsKeepIds(s: State)
    requires RowsInv(s)
    ensures forall id :: id in s.table ==> s.table[id].event.id == id
  {
    forall id | id in s.table ensures s.table[id].event.id == id { assert RowInv(s, id); }
  }

  /** The verdict and the delay are those of a worker that knows its claim; any other token is refused. */
  ghost predicate VerdictOf(s: State, id: Id, claimToken: Token, workerId: string, deadLetter: bool, retryDelayMs: int) {
    && retryDelayMs >= 1
    && forall attempt: nat :: KnowsClaim(s.log, id, claimToken, workerId, attempt) ==> deadLetter == (attempt >= s.maxAttempts)
  }

  class PostgresOutboxStore {
    var clock: int
    var table: Table
    var nextToken: Token
    ghost var log: seq<Entry>
    const maxAttempts: int // the workers' option, which decides what a failure records

    /** The machine's state. */
    ghost function Db(): State
      reads this
    {
      State(clock, table, nextToken, log, maxAttempts)
    }

    constructor (clock: int, maxAttempts: int)
      ensures Initial(Db()) && this.clock == clock && this.maxAttempts == maxAttempts
    {
      this.clock, this.maxAttempts := clock, maxAttempts;
      table, nextToken, log := map[], 0, [];
    }

    /** `append`, inside a transaction that started at `now`. The payload is checked before the insert;
        `event.payload` is what an accepted value unfolds to. */
    method Append(event: Event, heap: JsonGraph.Heap, value: JsonGraph.Slot, now: int) returns (error: Option<StoreError>)
      requires Inv(Db()) && now <= clock
      requires JsonGraph.ValidHeap(heap) && JsonGraph.SlotIn(heap, value)
      requires JsonGraph.IsJson(heap, value) ==> JsonGraph.Unfolds(heap, value, event.payload)
      requires event.id in table || FreshId(Db(), event.id) // identifiers are random, never used again
      modifies this
      ensures Inv(Db())
      ensures error.None? <==> JsonGraph.IsJson(heap, value) && event.id !in old(table) && event.schemaVersion > 0
      ensures error.None? ==> Enabled(old(Db()), OutboxMachine.Append(event, now))
                              && Db() == Apply(old(Db()), OutboxMachine.Append(event, now))
      ensures error.Some? ==> Db() == old(Db())
    {
      var ok := JsonWalkers.AssertDurableJsonValue(heap, value);
      if !ok {
        return Some(NotDurableJson);
      }
      if event.schemaVersion <= 0 {
        return Some(CheckViolation);
      }
      if event.id in table {
        return Some(DuplicateKey);
      }
      AppendKeeps(Db(), event, now);
      table := table[event.id := NewRow(event, now)];
      log := log + [Appended(event.id)];
      return None;
    }

    /** `claim`, in a transaction that started at `now`: the first due rows in order, each with a token
        of its own, an attempt more and a fresh lease. When the transaction is refused nothing changes; when
        only its reply is lost, the leases are taken and nobody knows. */
    method Claim(batchSize: nat, leaseMs: int, workerId: string, now: int, reply: Reply)
      returns (r: Result<seq<ClaimedMessage>, StoreError>, ghost claimed: seq<ClaimedMessage>)
      requires Inv(Db()) && now <= clock && leaseMs > 0
      modifies this
      ensures Inv(Db()) && Later(old(Db()), Db())
      ensures r == if reply.Arrives? then Ok(claimed) else Err(NoReply)
      ensures reply.NeverSent? ==> Db() == old(Db()) && claimed == []
      ensures !reply.NeverSent? ==> Claims(old(Db()), Db(), claimed, batchSize, leaseMs, workerId, now)
    {
      LaterSelf(Db());
      if reply.NeverSent? {
        return Err(NoReply), [];
      }
      var chosen := FirstBatch(ClaimOrder(table, now), batchSize);
      var order := Listed(chosen);
      var messages := UpdateAll(order, batchSize, leaseMs, workerId, now);
      claimed := messages;
      r := if reply.Lost? then Err(NoReply) else Ok(messages);
    }

    /** The `UPDATE` over the selected rows. */
    method UpdateAll(order: seq<Id>, ghost batchSize: nat, leaseMs: int, workerId: string, now: int)
      returns (messages: seq<ClaimedMessage>)
      requires Inv(Db()) && Enabled(Db(), OutboxMachine.Claim(order, batchSize, leaseMs, workerId, now))
      modifies this
      ensures Db() == Apply(old(Db()), OutboxMachine.Claim(order, batchSize, leaseMs, workerId, now))
      ensures Inv(Db()) && Later(old(Db()), Db())
      ensures IdsOf(messages) == order && log == old(log) + Entries(messages, workerId, now, leaseMs)
      ensures forall k :: 0 <= k < |messages| ==> Selected(old(table), messages[k].event)
    {
      ClaimOrderInTable(Db(), order, batchSize, now);
      ClaimAllKeeps(Db(), order, leaseMs, workerId, now);
      ClaimAllLater(Db(), order, leaseMs, workerId, now);
      messages := UpdateRows(order, leaseMs, workerId, now);
    }

    method UpdateRows(order: seq<Id>, leaseMs: int, workerId: string, now: int) returns (messages: seq<ClaimedMessage>)
      requires RowsInv(Db()) && Distinct(order) && forall id :: id in order ==> id in table
      modifies this
      ensures Db() == ClaimAll(old(Db()), order, leaseMs, workerId, now)
      ensures IdsOf(messages) == order && log == old(log) + Entries(messages, workerId, now, leaseMs)
      ensures forall k :: 0 <= k < |messages| ==> Selected(old(table), messages[k].event)
    {
      EventsKeepIds(Db());
      messages := [];
      for i := 0 to |order|
        invariant Updated(old(Db()), order, i, messages, leaseMs, workerId, now)
      {
        messages := UpdateClaimed(old(Db()), order, i, messages, leaseMs, workerId, now);
      }
      assert order[|order|..] == [];
    }

    /** After `i` of the selected rows: what is still to do leads to what `ClaimAll` says. */
    ghost predicate Updated(before: State, order: seq<Id>, i: nat, messages: seq<ClaimedMessage>,
                            leaseMs: int, workerId: string, now: int)
      reads this
    {
      && i <= |order| && |messages| == i && Distinct(order)
      && (forall id :: id in order ==> id in before.table && id in table)
      && (forall id :: id in order[i..] ==> table[id] == before.table[id])
      && (forall k :: 0 <= k < i ==> messages[k].event.id == order[k] && messages[k].event == before.table[order[k]].event)
      && log == before.log + Entries(messages, workerId, now, leaseMs)
      && ClaimAll(Db(), order[i..], leaseMs, workerId, now) == ClaimAll(before, order, leaseMs, workerId, now)
    }

    /** Updates one selected row and returns it as `RETURNING` does. */
    method UpdateClaimed(ghost before: State, order: seq<Id>, i: nat, messages: seq<ClaimedMessage>,
                         leaseMs: int, workerId: string, now: int) returns (all: seq<ClaimedMessage>)
      requires Updated(before, order, i, messages, leaseMs, workerId, now) && i < |order|
      requires forall id :: id in before.table ==> before.table[id].event.id == id
      modifies this
      ensures Updated(before, order, i + 1, all, leaseMs, workerId, now)
    {
      var id := order[i];
      RestDistinct(order, i);
      ClaimNext(Db(), order, i, leaseMs, workerId, now);
      var row := ClaimedRow(table[id], nextToken, workerId, now, leaseMs);
      table := table[id := row];
      var message := ClaimedMessage(row.event, nextToken, row.attempts);
      log := log + [ClaimEntry(message, workerId, now, leaseMs)];
      nextToken := nextToken + 1;
      all := messages + [message];
      EntriesSnoc(messages, message, workerId, now, leaseMs);
    }

    /** An `UPDATE` of one row, and what it means in the log. */
    method UpdateRow(id: Id, row: Row, ghost entry: Entry)
      modifies this
      ensures Db() == SetRow(old(Db()), id, row, entry)
    {
      table := table[id := row];
      log := log + [entry];
    }

    predicate Owns(id: Id, claimToken: Token, workerId: string)
      reads this
    {
      id in table && Owned(table[id], claimToken, workerId, clock)
    }

    /** `complete`: marks the message processed, or reports lost ownership. */
    method Complete(id: Id, claimToken: Token, workerId: string, reply: Reply) returns (r: Result<(), StoreError>)
      modifies this
      ensures Db() == if reply.NeverSent? then old(Db()) else CompleteOne(old(Db()), id, claimToken, workerId)
      ensures r == if !reply.Arrives? then Err(NoReply)
                   else if old(Owns(id, claimToken, workerId)) then Ok(()) else Err(LostOwnership)
      ensures old(Inv(Db())) ==> Inv(Db())
    {
      if reply.NeverSent? {
        return Err(NoReply);
      }
      if Inv(Db()) {
        CompleteKeeps(Db(), id, claimToken, workerId);
      }
      var rowCount := 0;
      if Owns(id, claimToken, workerId) {
        UpdateRow(id, CompletedRow(table[id], clock), Completed(id, claimToken, clock));
        rowCount := 1;
      }
      if reply.Lost? {
        return Err(NoReply);
      }
      return if rowCount != 1 then Err(LostOwnership) else Ok(());
    }

    lemma VerdictOfOwner(s: State, id: Id, claimToken: Token, workerId: string)
      requires Inv(s) && id in s.table && Owned(s.table[id], claimToken, workerId, s.clock)
      ensures KnowsClaim(s.log, id, claimToken, workerId, s.table[id].attempts)
    {
      assert RowInv(s, id);
      assert s.log[LastAbout(s.log, id)].Claimed?;
    }

    lemma FailKeepsFromWorker(s: State, id: Id, claimToken: Token, workerId: string, deadLetter: bool, retryDelayMs: int, error: string)
      requires Inv(s) && VerdictOf(s, id, claimToken, workerId, deadLetter, retryDelayMs)
      ensures Inv(FailOne(s, id, claimToken, workerId, deadLetter, retryDelayMs, error))
    {
      if id in s.table && Owned(s.table[id], claimToken, workerId, s.clock) {
        VerdictOfOwner(s, id, claimToken, workerId);
        FailKeeps(s, id, claimToken, workerId, s.table[id].attempts, retryDelayMs, error);
      }
    }

    /** `fail`: schedules the retry or the dead letter, or reports lost ownership. Whatever is passed, the
        table changes as stated; with a worker's verdict the invariant is kept. */
    method Fail(id: Id, claimToken: Token, workerId: string, deadLetter: bool, retryDelayMs: int, error: string, reply: Reply)
      returns (r: Result<(), StoreError>)
      modifies this
      ensures Db() == if reply.NeverSent? then old(Db())
                      else FailOne(old(Db()), id, claimToken, workerId, deadLetter, retryDelayMs, error)
      ensures r == if !reply.Arrives? then Err(NoReply)
                   else if old(Owns(id, claimToken, workerId)) then Ok(()) else Err(LostOwnership)
      ensures old(Inv(Db()) && VerdictOf(Db(), id, claimToken, workerId, deadLetter, retryDelayMs)) ==> Inv(Db())
    {
      if reply.NeverSent? {
        return Err(NoReply);
      }
      ghost var before := Db();
      if Inv(before) && VerdictOf(before, id, claimToken, workerId, deadLetter, retryDelayMs) {
        FailKeepsFromWorker(before, id, claimToken, workerId, deadLetter, retryDelayMs, error);
      }
      var rowCount := UpdateFailed(id, claimToken, workerId, deadLetter, retryDelayMs, error);
      if reply.Lost? {
        return Err(NoReply);
      }
      return if rowCount != 1 then Err(LostOwnership) else Ok(());
    }

    /** The guarded `UPDATE`, and how many rows it changed. */
    method UpdateFailed(id: Id, claimToken: Token, workerId: string, deadLetter: bool, retryDelayMs: int, error: string)
      returns (rowCount: nat)
      modifies this
      ensures Db() == FailOne(old(Db()), id, claimToken, workerId, deadLetter, retryDelayMs, error)
      ensures rowCount == if old(Owns(id, claimToken, workerId)) then 1 else 0
    {
      if !Owns(id, claimToken, workerId) {
        return 0;
      }
      UpdateRow(id, FailedRow(table[id], clock, retryDelayMs, deadLetter, error),
                Failed(id, claimToken, clock, deadLetter, clock + retryDelayMs, error));
      return 1;
    }

    /** `inspect` */
    method Inspect() returns (stats: Stats)
      ensures stats.pendingCount == |PendingIds(table)| && stats.deadLetterCount == |DeadIds(table)|
      ensures EarliestPending(table, stats.oldestPendingAt)
    {
      var pending, dead, oldest := 0, 0, None;
      var seen: Table, rest := map[], table.Keys;
      while rest != {}
        invariant rest <= table.Keys && seen.Keys == table.Keys - rest && seen == map id | id in seen :: table[id]
        invariant pending == |PendingIds(seen)| && dead == |DeadIds(seen)| && EarliestPending(seen, oldest)
        decreases rest
      {
        var id :| id in rest;
        EarlierPending(seen, id, table[id], oldest);
        OneMorePending(seen, id, table[id]);
        OneMoreDead(seen, id, table[id]);
        if Pending(table[id]) {
          pending := pending + 1;
        }
        if table[id].deadAt.Some? {
          dead := dead + 1;
        }
        oldest := Earlier(oldest, table[id]);
        seen, rest := seen[id := table[id]], rest - {id};
      }
      assert seen == table;
      stats := Stats(pending, dead, oldest);
    }

    /** `purgeFinalized`: the oldest finalized messages go, nothing else changes. */
    method PurgeFinalized(batchSize: nat, deadLetteredBefore: int, processedBefore: int, reply: Reply)
      returns (r: Result<nat, StoreError>, ghost victims: set<Id>)
      requires Inv(Db())
      modifies this
      ensures Inv(Db())
      ensures r == if reply.Arrives? then Ok(|victims|) else Err(NoReply)
      ensures reply.NeverSent? ==> Db() == old(Db())
      ensures !reply.NeverSent? ==> Purges(old(Db()), Db(), victims, batchSize, processedBefore, deadLetteredBefore)
    {
      if reply.NeverSent? {
        return Err(NoReply), {};
      }
      var candidates := FirstBatch(PurgeOrder(table, processedBefore, deadLetteredBefore), batchSize);
      victims := candidates;
      PurgedInTable(table, candidates, processedBefore, deadLetteredBefore);
      PurgedBatch(Db(), candidates, batchSize, processedBefore, deadLetteredBefore);
      DeleteRows(candidates);
      r := if reply.Lost? then Err(NoReply) else Ok(|candidates|);
    }

    lemma PurgedInTable(t: Table, victims: set<Id>, processedBefore: int, deadBefore: int)
      requires victims <= PurgeOrder(t, processedBefore, deadBefore).Keys
      ensures victims <= t.Keys
    {
    }

    lemma PurgedBatch(s: State, victims: set<Id>, limit: nat, processedBefore: int, deadBefore: int)
      requires IsFirstBatch(PurgeOrder(s.table, processedBefore, deadBefore), limit, victims)
      ensures Purges(s, PurgeAll(s, victims), victims, limit, processedBefore, deadBefore)
    {
    }

    /** The `DELETE` of the selected rows. */
    method DeleteRows(victims: set<Id>)
      requires Inv(Db()) && victims <= table.Keys
      modifies this
      ensures Inv(Db()) && Db() == PurgeAll(old(Db()), victims)
    {
      PurgeAllKeeps(Db(), victims);
      PurgeAllTable(Db(), victims);
      ghost var purged := PurgeAll(Db(), victims);
      table := table - victims;
      log := purged.log;
      assert Db() == purged;
    }

    /** `requeueDeadLetter`: a dead letter starts a new epoch; anything else is left alone. */
    method RequeueDeadLetter(messageId: Id) returns (requeued: bool)
      requires Inv(Db())
      modifies this
      ensures Inv(Db()) && Db() == RequeueOne(old(Db()), messageId)
      ensures requeued <==> IsDeadLetter(old(Db()), messageId)
    {
      RequeueKeeps(Db(), messageId);
      requeued := messageId in table && table[messageId].processedAt.None? && table[messageId].deadAt.Some?;
      if requeued {
        UpdateRow(messageId, RequeuedRow(table[messageId], clock), Requeued(messageId, clock));
      }
    }
  }
}
