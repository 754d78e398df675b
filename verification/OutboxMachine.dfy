/** The outbox table as a machine: appends, claims, settlements, requeues and purges by any number of
    workers, with a log of what was committed.

    Each SQL statement is one atomic step. `now` is the start of the statement's transaction: for the
    transactions of `append` and `claim` it may lie behind the clock, single statements run at the clock. */
module OutboxMachine {
  import opened Prelude
  import opened JsonText

  type Id = nat
  type Token = nat

  datatype Event = Event(id: Id, eventType: string, aggregateId: Id, schemaVersion: int, occurredAt: int, payload: Json)

  datatype Row = Row(
    event: Event,
    availableAt: int,
    attempts: nat,
    lockedAt: Option<int>,
    lockedBy: Option<string>,
    lockedUntil: Option<int>,
    claimToken: Option<Token>,
    processedAt: Option<int>,
    deadAt: Option<int>,
    lastError: Option<string>
  )

  type Table = map<Id, Row>

  /** One committed change of one message. */
  datatype Entry =
    | Appended(id: Id)
    | Claimed(id: Id, token: Token, worker: string, at: int, until: int, attempt: nat)
    | Completed(id: Id, token: Token, at: int)
    | Failed(id: Id, token: Token, at: int, dead: bool, retryAt: int, error: string)
    | Requeued(id: Id, at: int)
    | Purged(id: Id)

  datatype State = State(
    clock: int,
    table: Table,
    nextToken: Token, // gen_random_uuid never repeats
    log: seq<Entry>,
    maxAttempts: int
  )

  datatype Step =
    | Tick(to: int)
    | Append(event: Event, now: int)
    | Claim(order: seq<Id>, limit: nat, leaseMs: int, worker: string, now: int)
    | Complete(id: Id, token: Token, worker: string)
    | Fail(id: Id, token: Token, worker: string, attempt: nat, delayMs: int, error: string)
    | Requeue(id: Id)
    | Purge(victims: set<Id>, limit: nat, processedBefore: int, deadBefore: int)

  // ----- rows -----

  predicate Pending(r: Row) {
    r.processedAt.None? && r.deadAt.None?
  }

  predicate IsLocked(r: Row) { r.claimToken.Some? }

  function Unlocked(r: Row): Row {
    r.(lockedAt := None, lockedBy := None, lockedUntil := None, claimToken := None)
  }

  predicate Claimable(r: Row, now: int) {
    && Pending(r) && r.availableAt <= now
    && (r.lockedUntil.None? || r.lockedUntil.value <= now)
  }

  /** The guard of `complete` and `fail`. */
  predicate Owned(r: Row, token: Token, worker: string, now: int) {
    && r.claimToken == Some(token) && r.lockedBy == Some(worker)
    && r.lockedUntil.Some? && r.lockedUntil.value > now && Pending(r)
  }

  function NewRow(e: Event, now: int): Row {
    Row(e, now, 0, None, None, None, None, None, None, None)
  }

  function ClaimedRow(r: Row, token: Token, worker: string, now: int, leaseMs: int): Row {
    r.(lockedAt := Some(now), lockedBy := Some(worker), lockedUntil := Some(now + leaseMs),
       claimToken := Some(token), attempts := r.attempts + 1)
  }

  function CompletedRow(r: Row, now: int): Row {
    Unlocked(r).(processedAt := Some(now), lastError := None)
  }

  function FailedRow(r: Row, now: int, delayMs: int, dead: bool, error: string): Row {
    Unlocked(r).(availableAt := now + delayMs, deadAt := if dead then Some(now) else None, lastError := Some(error))
  }

  function RequeuedRow(r: Row, now: int): Row {
    Unlocked(r).(availableAt := now, attempts := 0, deadAt := None, lastError := None)
  }

  /** `ORDER BY available_at, occurred_at` over the claimable rows. */
  function ClaimOrder(t: Table, now: int): map<Id, SortKey> {
    map id | id in t && Claimable(t[id], now) :: SortKey(t[id].availableAt, t[id].event.occurredAt)
  }

  predicate Purgeable(r: Row, processedBefore: int, deadBefore: int) {
    (r.processedAt.Some? && r.processedAt.value < processedBefore) || (r.deadAt.Some? && r.deadAt.value < deadBefore)
  }

  /** `ORDER BY COALESCE(processed_at, dead_lettered_at)` over the purgeable rows. */
  function PurgeOrder(t: Table, processedBefore: int, deadBefore: int): map<Id, SortKey> {
    map id | id in t && Purgeable(t[id], processedBefore, deadBefore) ::
      SortKey(if t[id].processedAt.Some? then t[id].processedAt.value else t[id].deadAt.value, 0)
  }

  // ----- steps -----

  function SetRow(s: State, id: Id, r: Row, e: Entry): State {
    s.(table := s.table[id := r], log := s.log + [e])
  }

  function ClaimOne(s: State, id: Id, leaseMs: int, worker: string, now: int): State
    requires id in s.table
  {
    var r := ClaimedRow(s.table[id], s.nextToken, worker, now, leaseMs);
    SetRow(s, id, r, Claimed(id, s.nextToken, worker, now, now + leaseMs, r.attempts)).(nextToken := s.nextToken + 1)
  }

  /** The selected rows, each with a token of its own, in the order they are returned. */
  function ClaimAll(s: State, order: seq<Id>, leaseMs: int, worker: string, now: int): State
    requires forall id :: id in order ==> id in s.table
    decreases |order|
  {
    if order == [] then s else ClaimAll(ClaimOne(s, order[0], leaseMs, worker, now), order[1..], leaseMs, worker, now)
  }

  function CompleteOne(s: State, id: Id, token: Token, worker: string): State {
    if id in s.table && Owned(s.table[id], token, worker, s.clock) then
      SetRow(s, id, CompletedRow(s.table[id], s.clock), Completed(id, token, s.clock))
    else s
  }

  function FailOne(s: State, id: Id, token: Token, worker: string, dead: bool, delayMs: int, error: string): State {
    if id in s.table && Owned(s.table[id], token, worker, s.clock) then
      SetRow(s, id, FailedRow(s.table[id], s.clock, delayMs, dead, error),
             Failed(id, token, s.clock, dead, s.clock + delayMs, error))
    else s
  }

  predicate IsDeadLetter(s: State, id: Id) {
    id in s.table && s.table[id].processedAt.None? && s.table[id].deadAt.Some?
  }

  function RequeueOne(s: State, id: Id): State {
    if IsDeadLetter(s, id) then SetRow(s, id, RequeuedRow(s.table[id], s.clock), Requeued(id, s.clock)) else s
  }

  function PurgeOne(s: State, id: Id): State {
    s.(table := s.table - {id}, log := s.log + [Purged(id)])
  }

  /** Purged rows go one after the other in some order; nobody observes which. */
  ghost function PurgeAll(s: State, victims: set<Id>): State
    decreases victims
  {
    if victims == {} then s else var id :| id in victims; PurgeAll(PurgeOne(s, id), victims - {id})
  }

  /** A worker settles with what its own claim returned. */
  ghost predicate KnowsClaim(log: seq<Entry>, id: Id, token: Token, worker: string, attempt: nat) {
    exists i :: 0 <= i < |log| && log[i].Claimed? && log[i].id == id && log[i].token == token
                && log[i].worker == worker && log[i].attempt == attempt
  }

  ghost predicate FreshId(s: State, id: Id) {
    forall i :: 0 <= i < |s.log| ==> s.log[i].id != id
  }

  ghost predicate Enabled(s: State, step: Step) {
    match step
    case Tick(to) => to >= s.clock
    case Append(e, now) => now <= s.clock && FreshId(s, e.id) && e.schemaVersion > 0
    case Claim(order, limit, leaseMs, _, now) =>
      && now <= s.clock && leaseMs > 0 && Distinct(order)
      && IsFirstBatch(ClaimOrder(s.table, now), limit, Ids(order))
    case Complete(_, _, _) => true
    case Fail(id, token, worker, attempt, delayMs, _) => KnowsClaim(s.log, id, token, worker, attempt) && delayMs >= 1
    case Requeue(_) => true
    case Purge(victims, limit, processedBefore, deadBefore) =>
      IsFirstBatch(PurgeOrder(s.table, processedBefore, deadBefore), limit, victims)
  }

  function Ids(order: seq<Id>): set<Id> {
    set id | id in order
  }

  lemma ClaimOrderInTable(s: State, order: seq<Id>, limit: nat, now: int)
    requires IsFirstBatch(ClaimOrder(s.table, now), limit, Ids(order))
    ensures forall id :: id in order ==> id in s.table && Claimable(s.table[id], now)
  {
    forall id | id in order ensures id in s.table && Claimable(s.table[id], now) {
      assert id in Ids(order) && id in ClaimOrder(s.table, now).Keys;
    }
  }

  ghost function Apply(s: State, step: Step): State
    requires Enabled(s, step)
  {
    match step
    case Tick(to) => s.(clock := to)
    case Append(e, now) => SetRow(s, e.id, NewRow(e, now), Appended(e.id))
    case Claim(order, limit, leaseMs, worker, now) =>
      ClaimOrderInTable(s, order, limit, now);
      ClaimAll(s, order, leaseMs, worker, now)
    case Complete(id, token, worker) => CompleteOne(s, id, token, worker)
    case Fail(id, token, worker, attempt, delayMs, error) =>
      FailOne(s, id, token, worker, attempt >= s.maxAttempts, delayMs, error)
    case Requeue(id) => RequeueOne(s, id)
    case Purge(victims, _, _, _) => PurgeAll(s, victims)
  }

  ghost predicate Run(s: State, steps: seq<Step>, s': State)
    decreases |steps|
  {
    if steps == [] then s == s' else Enabled(s, steps[0]) && Run(Apply(s, steps[0]), steps[1..], s')
  }

  ghost predicate Initial(s: State) {
    s.table == map[] && s.log == []
  }

  // ----- reading the log -----

  /** The index of the last entry about a message, or -1. */
  function LastAbout(log: seq<Entry>, id: Id): (r: int)
    ensures -1 <= r < |log|
    ensures r >= 0 ==> log[r].id == id
    ensures forall k :: r < k < |log| ==> log[k].id != id
  {
    if log == [] then -1
    else if log[|log| - 1].id == id then |log| - 1
    else LastAbout(log[..|log| - 1], id)
  }

  predicate IsSettlement(e: Entry) { e.Completed? || e.Failed? }

  /** When the claim with this token was settled. */
  function SettledAt(log: seq<Entry>, token: Token): (r: Option<int>)
    ensures r.None? <==> forall k :: 0 <= k < |log| ==> !(IsSettlement(log[k]) && log[k].token == token)
  {
    if log == [] then None
    else
      var e := log[|log| - 1];
      if IsSettlement(e) && e.token == token then Some(e.at) else SettledAt(log[..|log| - 1], token)
  }

  /** When a claim's ownership ends: at its settlement, or when the lease runs out. */
  function EndOf(log: seq<Entry>, claim: Entry): int
    requires claim.Claimed?
  {
    match SettledAt(log, claim.token) case Some(at) => at case None => claim.until
  }

  /** Failures recorded since the message was appended or last requeued. */
  function FailuresSince(log: seq<Entry>, id: Id): nat {
    if log == [] then 0
    else
      var e, before := log[|log| - 1], log[..|log| - 1];
      if e.id != id then FailuresSince(before, id)
      else if e.Appended? || e.Requeued? then 0
      else if e.Failed? then 1 + FailuresSince(before, id)
      else FailuresSince(before, id)
  }

  /** Claims logged since the message was appended or last requeued. */
  function ClaimsSince(log: seq<Entry>, id: Id): nat {
    if log == [] then 0
    else
      var e, before := log[|log| - 1], log[..|log| - 1];
      if e.id != id then ClaimsSince(before, id)
      else if e.Appended? || e.Requeued? then 0
      else if e.Claimed? then 1 + ClaimsSince(before, id)
      else ClaimsSince(before, id)
  }

  /** Completions logged since then. */
  function CompletedSince(log: seq<Entry>, id: Id): nat {
    if log == [] then 0
    else
      var e, before := log[|log| - 1], log[..|log| - 1];
      if e.id != id then CompletedSince(before, id)
      else if e.Appended? || e.Requeued? then 0
      else if e.Completed? then 1 + CompletedSince(before, id)
      else CompletedSince(before, id)
  }

  /** The last thing that happened to the message is a claim. */
  predicate IsOpen(log: seq<Entry>, id: Id) {
    var last := LastAbout(log, id);
    last >= 0 && log[last].Claimed?
  }

  /** Leases lost since then: claims followed by another claim of the message. */
  function LostSince(log: seq<Entry>, id: Id): nat {
    if log == [] then 0
    else
      var e, before := log[|log| - 1], log[..|log| - 1];
      if e.id != id then LostSince(before, id)
      else if e.Appended? || e.Requeued? then 0
      else if e.Claimed? && IsOpen(before, id) then 1 + LostSince(before, id)
      else LostSince(before, id)
  }

  // ----- the invariant -----

  /** The lock columns are all set or all null, and a lease has positive length. */
  predicate LockColumns(r: Row) {
    || (r.lockedAt.None? && r.lockedBy.None? && r.lockedUntil.None? && r.claimToken.None?)
    || (r.lockedAt.Some? && r.lockedBy.Some? && r.lockedUntil.Some? && r.claimToken.Some?
        && r.lockedAt.value < r.lockedUntil.value)
  }

  predicate RowShape(r: Row) {
    && LockColumns(r)
    && !(r.processedAt.Some? && r.deadAt.Some?)
    && (!Pending(r) ==> !IsLocked(r))
  }

  /** The status columns say what happened to the message last, when, and when it is due again. */
  predicate StatusFollows(r: Row, last: Entry) {
    match last
    case Completed(_, _, at) => r.processedAt == Some(at) && r.lastError.None?
    case Failed(_, _, at, dead, retryAt, error) =>
      && r.processedAt.None? && r.deadAt == (if dead then Some(at) else None)
      && r.availableAt == retryAt && r.lastError == Some(error)
    case Requeued(_, at) => Pending(r) && r.availableAt == at && r.lastError.None?
    case _ => Pending(r)
  }

  /** The lock columns are those of the message's last log entry, a claim not yet settled. */
  predicate LockIsLastClaim(s: State, id: Id)
    requires id in s.table
  {
    var r, last := s.table[id], LastAbout(s.log, id);
    && last >= 0 && RowShape(r) && StatusFollows(r, s.log[last])
    && if IsLocked(r) then
         && s.log[last] == Claimed(id, r.claimToken.value, r.lockedBy.value, r.lockedAt.value, r.lockedUntil.value, r.attempts)
         && SettledAt(s.log, r.claimToken.value).None?
       else !s.log[last].Claimed?
  }

  /** No claim of the message before this time can be granted any more. */
  function Floor(s: State, r: Row): int {
    if r.lockedAt.Some? then r.lockedAt.value else if Pending(r) then r.availableAt else s.clock
  }

  ghost predicate OldPeriodsOver(s: State, id: Id)
    requires id in s.table
  {
    forall i :: 0 <= i < |s.log| && s.log[i].Claimed? && s.log[i].id == id && s.table[id].claimToken != Some(s.log[i].token) ==>
      EndOf(s.log, s.log[i]) <= Floor(s, s.table[id])
  }

  function Bound(maxAttempts: int): int {
    if maxAttempts < 1 then 1 else maxAttempts
  }

  /** The failures of this epoch, against the attempts and the configured bound. */
  predicate FailuresBounded(s: State, id: Id)
    requires id in s.table
  {
    var r, n := s.table[id], FailuresSince(s.log, id);
    && n <= r.attempts == ClaimsSince(s.log, id)
    && CompletedSince(s.log, id) == (if r.processedAt.Some? then 1 else 0)
    && (IsLocked(r) ==> n < r.attempts)
    && (r.deadAt.None? ==> n < Bound(s.maxAttempts))
    && (r.deadAt.Some? ==> n <= Bound(s.maxAttempts) && r.attempts >= s.maxAttempts)
  }

  ghost predicate RowInv(s: State, id: Id)
    requires id in s.table
  {
    && s.table[id].event.id == id
    && LockIsLastClaim(s, id) && OldPeriodsOver(s, id) && FailuresBounded(s, id)
  }

  predicate HasToken(e: Entry) { e.Claimed? || IsSettlement(e) }

  /** Tokens name single claims. */
  ghost predicate TokensUnique(s: State) {
    && (forall i :: 0 <= i < |s.log| && HasToken(s.log[i]) ==> s.log[i].token < s.nextToken)
    && (forall i, j :: 0 <= i < j < |s.log| && s.log[i].Claimed? && s.log[j].Claimed? ==> s.log[i].token != s.log[j].token)
    && (forall a, b :: a in s.table && b in s.table && a != b && IsLocked(s.table[a]) ==>
         s.table[a].claimToken != s.table[b].claimToken)
    && (forall a :: a in s.table && IsLocked(s.table[a]) ==> s.table[a].claimToken.value < s.nextToken)
  }

  /** A settlement comes straight after its own claim, as far as its message is concerned. */
  predicate SettlesLastClaim(log: seq<Entry>, j: nat)
    requires j < |log| && IsSettlement(log[j])
  {
    var last := LastAbout(log[..j], log[j].id);
    last >= 0 && log[last].Claimed? && log[last].token == log[j].token && log[last].at <= log[j].at < log[last].until
  }

  ghost predicate SettlementsFollow(log: seq<Entry>) {
    forall j :: 0 <= j < |log| && IsSettlement(log[j]) ==> SettlesLastClaim(log, j)
  }

  /** Successive ownership periods of one message do not overlap. */
  ghost predicate PeriodsApart(log: seq<Entry>) {
    forall i, j :: 0 <= i < j < |log| && log[i].Claimed? && log[j].Claimed? && log[i].id == log[j].id ==>
      EndOf(log, log[i]) <= log[j].at
  }

  /** Every logged message was appended first, is in the table until it is purged, and never after. */
  ghost predicate Conserved(s: State) {
    && (forall id :: id in s.table ==> Appended(id) in s.log)
    && (forall i :: 0 <= i < |s.log| ==> Appended(s.log[i].id) in s.log)
    && (forall i :: 0 <= i < |s.log| ==> s.log[i].id in s.table || s.log[LastAbout(s.log, s.log[i].id)].Purged?)
    && (forall i :: 0 <= i < |s.log| && s.log[i].Purged? ==> s.log[i].id !in s.table)
  }

  ghost predicate TimesPast(s: State) {
    forall i :: 0 <= i < |s.log| ==> (s.log[i].Claimed? || IsSettlement(s.log[i]) || s.log[i].Requeued? ==> s.log[i].at <= s.clock)
  }

  ghost predicate RowsInv(s: State) {
    forall id :: id in s.table ==> RowInv(s, id)
  }

  ghost predicate Inv(s: State) {
    && RowsInv(s)
    && TokensUnique(s) && SettlementsFollow(s.log) && PeriodsApart(s.log) && Conserved(s) && TimesPast(s)
  }
}
