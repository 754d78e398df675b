/** Potential arguments over whole runs: the outbox drains, and nobody is overtaken without bound. */
module OutboxProgress {
  import opened Prelude
  import opened OutboxMachine
  import opened OutboxSafety
  import opened OutboxGuarantees

  // ----- draining -----

  function Max0(n: int): nat { if n < 0 then 0 else n }

  /** How many more settlements a row can take: one, plus one for each attempt it has left before it
      is dead-lettered. An attempt under way counts as not yet used. */
  function Weight(r: Row, maxAttempts: int): nat {
    if !Pending(r) then 0
    else if IsLocked(r) && r.attempts > 0 then 1 + Max0(maxAttempts - (r.attempts - 1))
    else 1 + Max0(maxAttempts - r.attempts)
  }

  function WeightOf(s: State, id: Id): nat {
    if id in s.table then Weight(s.table[id], s.maxAttempts) else 0
  }

  /** The weights of the messages below `n`. */
  function Potential(s: State, n: nat): nat {
    if n == 0 then 0 else Potential(s, n - 1) + WeightOf(s, n - 1)
  }

  ghost predicate Lighter(s: State, s': State) {
    forall id :: WeightOf(s', id) <= WeightOf(s, id)
  }

  lemma {:induction false} LighterPotential(s: State, s': State, n: nat)
    requires Lighter(s, s')
    ensures Potential(s', n) <= Potential(s, n)
  {
    if n > 0 { LighterPotential(s, s', n - 1); }
  }

  lemma {:induction false} StrictlyLighter(s: State, s': State, n: nat, id: Id)
    requires Lighter(s, s') && id < n && WeightOf(s', id) < WeightOf(s, id)
    ensures Potential(s', n) < Potential(s, n)
  {
    if id == n - 1 { LighterPotential(s, s', n - 1); } else { StrictlyLighter(s, s', n - 1, id); }
  }

  function Settlements(log: seq<Entry>): nat {
    if log == [] then 0 else Settlements(log[..|log| - 1]) + (if IsSettlement(log[|log| - 1]) then 1 else 0)
  }

  lemma SettlementsGrown(log: seq<Entry>, e: Entry)
    ensures Settlements(log + [e]) == Settlements(log) + (if IsSettlement(e) then 1 else 0)
  {
    assert (log + [e])[..|log|] == log;
  }

  predicate AddsNoWork(step: Step) {
    !step.Append? && !step.Requeue?
  }

  /** What a step may do to weights and settlements: it adds no weight, and pays for a settlement with
      at least one unit of its message's weight. */
  ghost predicate Pays(s: State, s': State, id: Id) {
    && Lighter(s, s')
    && Settlements(s.log) <= Settlements(s'.log) <= Settlements(s.log) + 1
    && (Settlements(s'.log) > Settlements(s.log) ==> id in s.table && WeightOf(s', id) < WeightOf(s, id))
  }

  lemma RowPays(s: State, s': State, id: Id, e: Entry)
    requires id in s.table && e.id == id && s'.log == s.log + [e] && s'.maxAttempts == s.maxAttempts
    requires id in s'.table && s'.table == s.table[id := s'.table[id]]
    requires Weight(s'.table[id], s.maxAttempts) < Weight(s.table[id], s.maxAttempts)
    ensures Pays(s, s', id)
  {
    SettlementsGrown(s.log, e);
  }

  lemma CompletePays(s: State, id: Id, token: Token, worker: string)
    ensures Pays(s, CompleteOne(s, id, token, worker), id)
  {
    if id in s.table && Owned(s.table[id], token, worker, s.clock) {
      RowPays(s, CompleteOne(s, id, token, worker), id, Completed(id, token, s.clock));
    }
  }

  lemma FailPays(s: State, id: Id, token: Token, worker: string, attempt: nat, delayMs: int, error: string)
    requires RowsInv(s) && TokensUnique(s) && KnowsClaim(s.log, id, token, worker, attempt)
    ensures Pays(s, FailOne(s, id, token, worker, attempt >= s.maxAttempts, delayMs, error), id)
  {
    if id in s.table && Owned(s.table[id], token, worker, s.clock) {
      assert RowInv(s, id);
      KnownAttempt(s, id, token, worker, attempt);
      RowPays(s, FailOne(s, id, token, worker, attempt >= s.maxAttempts, delayMs, error), id,
              Failed(id, token, s.clock, attempt >= s.maxAttempts, s.clock + delayMs, error));
    }
  }

  lemma {:induction false} ClaimAllLog(s: State, order: seq<Id>, leaseMs: int, worker: string, now: int)
    requires forall id :: id in order ==> id in s.table
    ensures Settlements(ClaimAll(s, order, leaseMs, worker, now).log) == Settlements(s.log)
    decreases |order|
  {
    if order != [] {
      var s1 := ClaimOne(s, order[0], leaseMs, worker, now);
      SettlementsGrown(s.log, s1.log[|s.log|]);
      ClaimAllLog(s1, order[1..], leaseMs, worker, now);
    }
  }

  lemma {:induction false} PurgeAllLog(s: State, victims: set<Id>)
    ensures Settlements(PurgeAll(s, victims).log) == Settlements(s.log)
    decreases victims
  {
    if victims != {} {
      var id :| id in victims && PurgeAll(s, victims) == PurgeAll(PurgeOne(s, id), victims - {id});
      SettlementsGrown(s.log, Purged(id));
      PurgeAllLog(PurgeOne(s, id), victims - {id});
    }
  }

  /** Claims never add weight, not even those that take over a lost lease. */
  lemma ClaimPays(s: State, order: seq<Id>, leaseMs: int, worker: string, now: int)
    requires RowsInv(s) && Distinct(order) && forall id :: id in order ==> id in s.table && Claimable(s.table[id], now)
    ensures Pays(s, ClaimAll(s, order, leaseMs, worker, now), 0)
    ensures ClaimAll(s, order, leaseMs, worker, now).table.Keys == s.table.Keys
  {
    var s' := ClaimAll(s, order, leaseMs, worker, now);
    ClaimAllRows(s, order, leaseMs, worker, now);
    ClaimAllLog(s, order, leaseMs, worker, now);
    forall id ensures WeightOf(s', id) <= WeightOf(s, id) {
      if id in order {
        assert RowInv(s, id);
        assert IsClaimOf(s'.table[id], s.table[id], worker, now, leaseMs);
      }
    }
  }

  lemma PurgePays(s: State, victims: set<Id>)
    ensures Pays(s, PurgeAll(s, victims), 0)
    ensures PurgeAll(s, victims).table.Keys <= s.table.Keys
  {
    PurgeAllTable(s, victims);
    PurgeAllLog(s, victims);
  }

  ghost predicate IdsBelow(s: State, n: nat) {
    forall id :: id in s.table ==> id < n
  }

  lemma PaysPotential(s: State, s': State, id: Id, n: nat)
    requires Pays(s, s', id) && IdsBelow(s, n)
    ensures Settlements(s.log) <= Settlements(s'.log)
    ensures Settlements(s'.log) + Potential(s', n) <= Settlements(s.log) + Potential(s, n)
  {
    LighterPotential(s, s', n);
    if Settlements(s'.log) > Settlements(s.log) { StrictlyLighter(s, s', n, id); }
  }

  lemma StepPays(s: State, step: Step) returns (id: Id)
    requires Inv(s) && Enabled(s, step) && AddsNoWork(step)
    ensures Pays(s, Apply(s, step), id) && Apply(s, step).table.Keys <= s.table.Keys
  {
    id := 0;
    match step
    case Tick(_) =>
    case Claim(order, limit, leaseMs, worker, now) =>
      ClaimOrderInTable(s, order, limit, now);
      ClaimPays(s, order, leaseMs, worker, now);
    case Purge(victims, _, _, _) => PurgePays(s, victims);
    case Complete(settled, token, worker) =>
      id := settled;
      CompletePays(s, settled, token, worker);
    case Fail(settled, token, worker, attempt, delayMs, error) =>
      id := settled;
      FailPays(s, settled, token, worker, attempt, delayMs, error);
  }

  lemma StepPotential(s: State, step: Step, n: nat)
    requires Inv(s) && Enabled(s, step) && AddsNoWork(step) && IdsBelow(s, n)
    ensures Settlements(s.log) <= Settlements(Apply(s, step).log)
    ensures Settlements(Apply(s, step).log) + Potential(Apply(s, step), n) <= Settlements(s.log) + Potential(s, n)
    ensures IdsBelow(Apply(s, step), n)
  {
    var id := StepPays(s, step);
    PaysPotential(s, Apply(s, step), id, n);
  }

  /** Main result: while nothing is appended or requeued, all workers together record at most
      `Potential` settlements, whatever they interleave and however many leases they lose. */
  lemma {:induction false} SettlementsBounded(s: State, steps: seq<Step>, s': State, n: nat)
    requires Inv(s) && Run(s, steps, s') && IdsBelow(s, n)
    requires forall i :: 0 <= i < |steps| ==> AddsNoWork(steps[i])
    ensures Settlements(s.log) <= Settlements(s'.log)
    ensures Settlements(s'.log) + Potential(s', n) <= Settlements(s.log) + Potential(s, n)
    ensures Inv(s') && IdsBelow(s', n)
    decreases |steps|
  {
    if steps != [] {
      StepPotential(s, steps[0], n);
      StepKeeps(s, steps[0]);
      SettlementsBounded(Apply(s, steps[0]), steps[1..], s', n);
    }
  }

  ghost predicate HasPending(s: State) {
    exists id :: id in s.table && Pending(s.table[id])
  }

  lemma {:induction false} NoPotentialNoPending(s: State, n: nat)
    requires Potential(s, n) == 0
    ensures forall id :: id in s.table && id < n ==> !Pending(s.table[id])
  {
    if n > 0 { NoPotentialNoPending(s, n - 1); }
  }

  /** One round of workers: no new work, and a settlement when something is pending. */
  ghost predicate SettlingRound(s: State, s': State) {
    && (exists steps :: Run(s, steps, s') && forall i :: 0 <= i < |steps| ==> AddsNoWork(steps[i]))
    && (HasPending(s) ==> Settlements(s'.log) > Settlements(s.log))
  }

  lemma {:induction false} NoPendingNoPotential(s: State, n: nat)
    requires !HasPending(s)
    ensures Potential(s, n) == 0
  {
    if n > 0 { NoPendingNoPotential(s, n - 1); }
  }

  lemma RoundPotential(s: State, s': State, n: nat)
    requires Inv(s) && IdsBelow(s, n) && SettlingRound(s, s')
    ensures Inv(s') && IdsBelow(s', n)
    ensures Potential(s', n) <= Potential(s, n) && (Potential(s, n) > 0 ==> Potential(s', n) < Potential(s, n))
  {
    var steps :| Run(s, steps, s') && forall i :: 0 <= i < |steps| ==> AddsNoWork(steps[i]);
    SettlementsBounded(s, steps, s', n);
    if !HasPending(s) { NoPendingNoPotential(s, n); }
  }

  /** Draining: after `Potential` settling rounds nothing is pending. */
  lemma {:induction false} Drains(rounds: seq<State>, n: nat)
    requires rounds != [] && Inv(rounds[0]) && IdsBelow(rounds[0], n)
    requires forall k :: 0 <= k < |rounds| - 1 ==> SettlingRound(rounds[k], rounds[k + 1])
    requires |rounds| > Potential(rounds[0], n)
    ensures !HasPending(rounds[|rounds| - 1])
    decreases |rounds|
  {
    if |rounds| == 1 {
      NoPotentialNoPending(rounds[0], n);
    } else {
      RoundPotential(rounds[0], rounds[1], n);
      forall k | 0 <= k < |rounds[1..]| - 1 ensures SettlingRound(rounds[1..][k], rounds[1..][k + 1]) {
        assert SettlingRound(rounds[k + 1], rounds[k + 2]);
      }
      Drains(rounds[1..], n);
    }
  }

  /** Everything pending is due at `now`, with no lease running. */
  predicate AllDue(s: State, now: int) {
    forall id :: id in s.table && Pending(s.table[id]) ==> Claimable(s.table[id], now)
  }

  /** A claim finds work as soon as everything pending is due and no lease is running. */
  lemma ClaimFindsWork(s: State, step: Step)
    requires step.Claim? && Enabled(s, step) && step.limit > 0 && HasPending(s)
    requires AllDue(s, step.now)
    ensures step.order != []
  {
    var id :| id in s.table && Pending(s.table[id]);
    var rows := ClaimOrder(s.table, step.now);
    assert id in rows;
    assert rows.Keys != {} && |rows| == |rows.Keys|;
    assert Ids([]) == {};
  }

  /** Nothing pending becomes available, and no lease runs out, later than `span` from now. */
  predicate Near(s: State, span: nat) {
    forall id :: id in s.table && Pending(s.table[id]) ==> RowNear(s.table[id], s.clock + span)
  }

  predicate RowNear(r: Row, horizon: int) {
    r.availableAt <= horizon && (r.lockedUntil.Some? ==> r.lockedUntil.value <= horizon)
  }

  /** Leases and retry delays are no longer than `span`. */
  predicate WithinSpan(step: Step, span: nat) {
    match step
    case Claim(_, _, leaseMs, _, _) => leaseMs <= span
    case Fail(_, _, _, _, delayMs, _) => delayMs <= span
    case _ => true
  }

  lemma NearStays(s: State, step: Step, span: nat)
    requires Near(s, span) && Enabled(s, step) && WithinSpan(step, span)
    ensures Near(Apply(s, step), span)
  {
    match step
    case Claim(order, limit, leaseMs, worker, now) =>
      ClaimOrderInTable(s, order, limit, now);
      ClaimAllRows(s, order, leaseMs, worker, now);
      var s' := Apply(s, step);
      forall id | id in s'.table && Pending(s'.table[id]) ensures RowNear(s'.table[id], s'.clock + span) {
        if id in order { assert IsClaimOf(s'.table[id], s.table[id], worker, now, leaseMs); }
      }
    case Purge(victims, _, _, _) => PurgeAllTable(s, victims);
    case _ =>
  }

  lemma {:induction false} NearThrough(s: State, steps: seq<Step>, s': State, span: nat)
    requires Near(s, span) && Run(s, steps, s') && forall i :: 0 <= i < |steps| ==> WithinSpan(steps[i], span)
    ensures Near(s', span)
    decreases |steps|
  {
    if steps != [] {
      NearStays(s, steps[0], span);
      NearThrough(Apply(s, steps[0]), steps[1..], s', span);
    }
  }

  /** The clock does the rest: after any run whose leases and retry delays stay within `span`, a pause of that
      length makes everything pending due, so that the next claim takes something if anything is pending. */
  lemma PauseMakesDue(s0: State, steps: seq<Step>, s: State, span: nat, to: int)
    requires Initial(s0) && Run(s0, steps, s) && (forall i :: 0 <= i < |steps| ==> WithinSpan(steps[i], span))
    requires to >= s.clock + span
    ensures AllDue(Apply(s, Tick(to)), to)
    ensures forall step: Step :: step.Claim? && step.now == to && step.limit > 0 && Enabled(Apply(s, Tick(to)), step) && HasPending(s) ==>
              step.order != []
  {
    NearThrough(s0, steps, s, span);
    var waited := Apply(s, Tick(to));
    forall id | id in waited.table && Pending(waited.table[id]) ensures Claimable(waited.table[id], to) {
      assert RowNear(s.table[id], s.clock + span);
    }
    if HasPending(s) {
      var id :| id in s.table && Pending(s.table[id]);
      assert id in waited.table && Pending(waited.table[id]);
    }
    forall step: Step | step.Claim? && step.now == to && step.limit > 0 && Enabled(waited, step) && HasPending(s) ensures step.order != [] {
      ClaimFindsWork(waited, step);
    }
  }

  // ----- overtaking -----

  function KeyOf(r: Row): SortKey {
    SortKey(r.availableAt, r.event.occurredAt)
  }

  /** Pending messages no worker holds that may be claimed before `m`, ties included. */
  ghost function Ahead(t: Table, m: Id): set<Id>
    requires m in t
  {
    set id | id in t && id != m && Pending(t[id]) && !IsLocked(t[id]) && KeyLe(KeyOf(t[id]), KeyOf(t[m]))
  }

  /** The message waits: pending, unclaimed and due. */
  predicate Waits(s: State, m: Id) {
    m in s.table && Pending(s.table[m]) && !IsLocked(s.table[m]) && LockColumns(s.table[m]) && s.table[m].availableAt < s.clock
  }

  /** A step that leaves `m` unclaimed. */
  predicate PassesOver(step: Step, m: Id) {
    step.Claim? ==> m !in step.order
  }

  /** The rows of a claim that it takes over from a lease that has run out. */
  ghost function TakenOver(t: Table, order: seq<Id>): set<Id> {
    set id | id in order && id in t && IsLocked(t[id])
  }

  /** How many messages a step may put ahead of one that fell due at `due`: an append whose transaction
      began no later, and the leases a claim takes over. */
  ghost function PutsAhead(s: State, step: Step, due: int): nat {
    match step
    case Append(_, now) => if now <= due then 1 else 0
    case Claim(order, _, _, _, _) => |TakenOver(s.table, order)|
    case _ => 0
  }

  /** How many messages a claim takes that could have taken one due at `due`. */
  function Takes(step: Step, due: int): nat {
    if step.Claim? && due <= step.now then step.limit else 0
  }

  /** A changed row that is not free, or becomes available only after `m`, is not ahead of `m`. */
  lemma RowFallsBehind(t: Table, m: Id, id: Id, r: Row)
    requires m in t && id != m
    requires !Pending(r) || IsLocked(r) || t[m].availableAt < r.availableAt
    ensures Ahead(t[id := r], m) <= Ahead(t, m)
  {
  }

  /** The message waits on, its row as it was. */
  predicate StillWaits(s: State, s': State, m: Id) {
    m in s.table && Waits(s', m) && s'.table[m] == s.table[m]
  }

  /** Settling, requeuing and purging never put a message ahead of one that waits, and neither does an
      append in a transaction that began after it fell due. */
  lemma OthersFallBehind(s: State, step: Step, m: Id)
    requires Enabled(s, step) && Waits(s, m) && !step.Claim? && PutsAhead(s, step, s.table[m].availableAt) == 0
    requires step.Append? ==> step.event.id != m
    ensures StillWaits(s, Apply(s, step), m) && Ahead(Apply(s, step).table, m) <= Ahead(s.table, m)
  {
    match step
    case Tick(_) =>
    case Append(e, now) => RowFallsBehind(s.table, m, e.id, NewRow(e, now));
    case Complete(id, token, worker) =>
      if id in s.table && Owned(s.table[id], token, worker, s.clock) {
        RowFallsBehind(s.table, m, id, CompletedRow(s.table[id], s.clock));
      }
    case Fail(id, token, worker, attempt, delayMs, error) =>
      if id in s.table && Owned(s.table[id], token, worker, s.clock) {
        RowFallsBehind(s.table, m, id, FailedRow(s.table[id], s.clock, delayMs, attempt >= s.maxAttempts, error));
      }
    case Requeue(id) =>
      if IsDeadLetter(s, id) { RowFallsBehind(s.table, m, id, RequeuedRow(s.table[id], s.clock)); }
    case Purge(victims, _, processedBefore, deadBefore) =>
      PurgeAllTable(s, victims);
      assert m !in PurgeOrder(s.table, processedBefore, deadBefore).Keys;
      assert Ahead(s.table - victims, m) <= Ahead(s.table, m);
  }

  /** Any other append puts at most its own message ahead. */
  lemma AppendGetsAhead(s: State, e: Event, now: int, m: Id)
    requires Waits(s, m) && e.id != m
    ensures var s' := SetRow(s, e.id, NewRow(e, now), Appended(e.id));
            StillWaits(s, s', m) && |Ahead(s'.table, m)| <= |Ahead(s.table, m)| + 1
  {
    var before, after := Ahead(s.table, m), Ahead(s.table[e.id := NewRow(e, now)], m);
    SubsetSize(after, before + {e.id});
  }

  /** The free rows a claim takes while it passes over `m`, which it could have taken, were all ahead. */
  lemma ChosenWereAhead(s: State, order: seq<Id>, m: Id, limit: nat, now: int)
    requires RowsInv(s) && Waits(s, m) && m !in order && s.table[m].availableAt <= now
    requires IsFirstBatch(ClaimOrder(s.table, now), limit, Ids(order))
    ensures Ids(order) - TakenOver(s.table, order) <= Ahead(s.table, m) && |Ids(order)| == limit
  {
    var rows, chosen := ClaimOrder(s.table, now), Ids(order);
    assert m in rows.Keys - chosen;
    FullBatch(rows, chosen, m, limit);
    forall id | id in chosen - TakenOver(s.table, order) ensures id in Ahead(s.table, m) {
      assert id in rows.Keys && KeyLe(rows[id], rows[m]);
    }
  }

  lemma ClaimedLeave(s: State, order: seq<Id>, m: Id, leaseMs: int, worker: string, now: int)
    requires Distinct(order) && (forall id :: id in order ==> id in s.table) && Waits(s, m) && m !in order
    ensures var s' := ClaimAll(s, order, leaseMs, worker, now);
            StillWaits(s, s', m) && Ahead(s'.table, m) <= Ahead(s.table, m) - Ids(order)
  {
    var s' := ClaimAll(s, order, leaseMs, worker, now);
    ClaimAllRows(s, order, leaseMs, worker, now);
    assert forall id :: id in order ==> IsLocked(s'.table[id]);
  }

  lemma SizesWithout(ahead: set<Id>, ids: set<Id>, over: set<Id>)
    requires ids - over <= ahead
    ensures |ahead - ids| + |ids| <= |ahead| + |over|
  {
    SubsetSize(ids, (ids - over) + over);
    SubsetSize(ahead - ids, ahead - (ids - over));
    assert |ahead - (ids - over)| == |ahead| - |ids - over|;
    assert |(ids - over) + over| <= |ids - over| + |over|;
  }

  /** A claim that passes over a waiting message takes a full batch from those ahead of it, if it could
      have taken the message; no claim puts anything ahead. */
  lemma ClaimTakesAhead(s: State, step: Step, m: Id)
    requires RowsInv(s) && Enabled(s, step) && Waits(s, m) && step.Claim? && PassesOver(step, m)
    ensures StillWaits(s, Apply(s, step), m)
    ensures |Ahead(Apply(s, step).table, m)| + Takes(step, s.table[m].availableAt)
         <= |Ahead(s.table, m)| + PutsAhead(s, step, s.table[m].availableAt)
  {
    var Claim(order, limit, leaseMs, worker, now) := step;
    ClaimOrderInTable(s, order, limit, now);
    ClaimedLeave(s, order, m, leaseMs, worker, now);
    var before, after := Ahead(s.table, m), Ahead(Apply(s, step).table, m);
    SubsetSize(after, before - Ids(order));
    SubsetSize(before - Ids(order), before);
    if s.table[m].availableAt <= now {
      ChosenWereAhead(s, order, m, limit, now);
      SizesWithout(before, Ids(order), TakenOver(s.table, order));
    }
  }

  /** A batch that leaves a candidate out is full. */
  lemma FullBatch(rows: map<Id, SortKey>, chosen: set<Id>, m: Id, limit: nat)
    requires IsFirstBatch(rows, limit, chosen) && m in rows.Keys - chosen
    ensures |chosen| == limit
  {
    SubsetSize(chosen + {m}, rows.Keys);
    assert |chosen + {m}| == |chosen| + 1 && |rows| == |rows.Keys|;
  }

  function DueClaims(steps: seq<Step>, due: int): nat {
    if steps == [] then 0 else (if steps[0].Claim? && due <= steps[0].now then 1 else 0) + DueClaims(steps[1..], due)
  }

  /** How many messages those claims take, each a full batch. */
  function Taken(steps: seq<Step>, due: int): nat {
    if steps == [] then 0 else Takes(steps[0], due) + Taken(steps[1..], due)
  }

  /** The run leaves `m` unclaimed throughout. */
  ghost predicate WaitsThrough(s: State, steps: seq<Step>, m: Id)
    decreases |steps|
  {
    steps == [] || (Enabled(s, steps[0]) && PassesOver(steps[0], m) && WaitsThrough(Apply(s, steps[0]), steps[1..], m))
  }

  /** How many messages the run may put ahead. */
  ghost function AllPutAhead(s: State, steps: seq<Step>, due: int, m: Id): nat
    requires WaitsThrough(s, steps, m)
    decreases |steps|
  {
    if steps == [] then 0
    else PutsAhead(s, steps[0], due) + AllPutAhead(Apply(s, steps[0]), steps[1..], due, m)
  }

  lemma StepOvertakes(s: State, step: Step, m: Id)
    requires Inv(s) && Enabled(s, step) && Waits(s, m) && PassesOver(step, m)
    ensures StillWaits(s, Apply(s, step), m)
    ensures |Ahead(Apply(s, step).table, m)| + Takes(step, s.table[m].availableAt)
         <= |Ahead(s.table, m)| + PutsAhead(s, step, s.table[m].availableAt)
  {
    if step.Claim? {
      ClaimTakesAhead(s, step, m);
    } else {
      if step.Append? { assert Appended(m) in s.log; }
      if PutsAhead(s, step, s.table[m].availableAt) == 0 {
        OthersFallBehind(s, step, m);
        SubsetSize(Ahead(Apply(s, step).table, m), Ahead(s.table, m));
      } else {
        AppendGetsAhead(s, step.event, step.now, m);
      }
    }
  }

  lemma {:induction false} StepsOvertake(s: State, steps: seq<Step>, m: Id, due: int)
    requires Inv(s) && Waits(s, m) && WaitsThrough(s, steps, m) && due == s.table[m].availableAt
    ensures Taken(steps, due) <= |Ahead(s.table, m)| + AllPutAhead(s, steps, due, m)
    decreases |steps|
  {
    if steps != [] {
      var s1 := FirstOvertakes(s, steps, m);
      StepsOvertake(s1, steps[1..], m, due);
    }
  }

  lemma FirstOvertakes(s: State, steps: seq<Step>, m: Id) returns (s1: State)
    requires Inv(s) && Waits(s, m) && WaitsThrough(s, steps, m) && steps != []
    ensures s1 == Apply(s, steps[0]) && Inv(s1) && StillWaits(s, s1, m) && WaitsThrough(s1, steps[1..], m)
    ensures |Ahead(s1.table, m)| + Takes(steps[0], s.table[m].availableAt)
         <= |Ahead(s.table, m)| + PutsAhead(s, steps[0], s.table[m].availableAt)
  {
    s1 := Apply(s, steps[0]);
    StepKeeps(s, steps[0]);
    StepOvertakes(s, steps[0], m);
  }

  /** Every claim that could take a message due at `due` asks for at least `batch`. */
  predicate BatchesOf(steps: seq<Step>, due: int, batch: nat) {
    forall i :: 0 <= i < |steps| && steps[i].Claim? && due <= steps[i].now ==> steps[i].limit >= batch
  }

  lemma {:induction false} TakenByClaims(steps: seq<Step>, due: int, batch: nat)
    requires BatchesOf(steps, due, batch)
    ensures Taken(steps, due) >= DueClaims(steps, due) * batch
  {
    if steps != [] {
      assert BatchesOf(steps[1..], due, batch) by {
        forall i | 0 <= i < |steps[1..]| && steps[1..][i].Claim? && due <= steps[1..][i].now ensures steps[1..][i].limit >= batch {
          assert steps[i + 1] == steps[1..][i];
        }
      }
      TakenByClaims(steps[1..], due, batch);
      OneMore(DueClaims(steps[1..], due), batch);
    }
  }

  lemma OneMore(n: nat, batch: nat)
    ensures (1 + n) * batch == batch + n * batch
  {
  }

  lemma Divide(n: nat, batch: nat, total: nat)
    requires batch > 0 && n * batch <= total
    ensures n <= total / batch
  {
    var q := total / batch;
    assert n >= q + 1 ==> n * batch >= (q + 1) * batch;
  }

  lemma ClaimsWithin(steps: seq<Step>, due: int, batch: nat, total: nat)
    requires BatchesOf(steps, due, batch) && batch > 0 && Taken(steps, due) <= total
    ensures DueClaims(steps, due) <= total / batch
  {
    TakenByClaims(steps, due, batch);
    Divide(DueClaims(steps, due), batch, total);
  }

  /** Messages that may be claimed before `m` over this run: those ahead of it now, and stragglers. */
  ghost function MayGoFirst(s: State, steps: seq<Step>, m: Id): nat
    requires m in s.table && WaitsThrough(s, steps, m)
  {
    |Ahead(s.table, m)| + AllPutAhead(s, steps, s.table[m].availableAt, m)
  }

  lemma TakenMayGoFirst(s: State, steps: seq<Step>, m: Id)
    requires Reachable(s) && Waits(s, m) && WaitsThrough(s, steps, m)
    ensures Taken(steps, s.table[m].availableAt) <= MayGoFirst(s, steps, m)
  {
    ReachableInv(s);
    StepsOvertake(s, steps, m, s.table[m].availableAt);
  }

  /** Bounded overtaking: while a due message waits, each claim that could have taken it takes a full
      batch, and only from the messages that were ahead of it at the start, the appends of transactions
      that began before it fell due, and the leases that were lost since. So without such stragglers it
      is claimed within `|Ahead| / batch + 1` claims, however many messages are appended, retried or
      requeued. */
  lemma OvertakingBounded(s: State, steps: seq<Step>, m: Id, batch: nat)
    requires Reachable(s) && Waits(s, m) && WaitsThrough(s, steps, m) && batch > 0
    requires BatchesOf(steps, s.table[m].availableAt, batch)
    ensures DueClaims(steps, s.table[m].availableAt) <= MayGoFirst(s, steps, m) / batch
  {
    TakenMayGoFirst(s, steps, m);
    ClaimsWithin(steps, s.table[m].availableAt, batch, MayGoFirst(s, steps, m));
  }
}
