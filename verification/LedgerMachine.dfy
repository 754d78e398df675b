/** The idempotency ledger as a machine: many `runAtomically` transactions, interleaved statement by
    statement, over one table with advisory locks and row locks (PostgreSQL, READ COMMITTED).

    Every statement is one atomic step. A statement that would wait for a row lock is not enabled
    until the lock is gone. `start` is the transaction's `now()`; `clock` is real time. */
module LedgerMachine {
  import opened Prelude
  import opened JsonText
  import OutboxMachine

  datatype Key = Key(scope: string, procedure: string, key: string)

  function LockIdentity(k: Key): string {
    k.scope + ":" + k.procedure + ":" + k.key
  }

  /** A ledger row; `body` is what a read of the `jsonb` column returns. */
  datatype Record = Record(hash: string, status: int, body: Json, expires: int)

  datatype Outcome =
    | InProgress
    | Conflict
    | Replay(status: int, body: Json)
    | Executed(status: int, body: Json)

  /** A row change a handler makes through the transaction it is given. */
  datatype Write =
    | InsertProbe(probe: nat, value: string, createdAt: int)
    | AppendEvent(event: OutboxMachine.Event)
    | OtherWrite(row: string)

  /** How far a transaction has come. */
  datatype Phase =
    | Begun
    | Locked
    | Cleared
    | Swept
    | Running(writes: seq<Write>)
    | Inserted(writes: seq<Write>, record: Record, body: Json)
    | Decided(outcome: Outcome)

  datatype Txn = Txn(
    key: Key,
    hash: string,
    ttl: int,
    start: int,
    phase: Phase,
    deleted: set<Key>, // rows this transaction has deleted, not yet committed
    looked: int        // real time of its lookup
  )

  /** A committed call; `acknowledged` is false when the caller saw an error instead. */
  datatype Finished = Finished(
    id: nat,
    key: Key,
    hash: string,
    outcome: Outcome,
    start: int,
    ttl: int,
    looked: int,
    committed: int,
    stored: Option<Record>, // the row an execution wrote
    writes: seq<Write>,
    acknowledged: bool
  )

  datatype State = State(
    lockOf: string -> int, // hashtextextended(identity, 0), arbitrary
    jsonb: Json -> Json,   // how a stored body reads back, arbitrary
    clock: int,
    records: map<Key, Record>, // committed rows
    locks: map<int, nat>,      // advisory locks and their transactions
    rowLocks: map<Key, nat>,
    live: map<nat, Txn>,
    nextId: nat,
    product: seq<Write>,       // committed product writes
    history: seq<Finished>,    // commits in order
    origin: map<Key, nat>      // the commit that wrote each row
  )

  datatype Step =
    | Tick(to: int)
    | Begin(key: Key, hash: string, ttl: int)
    | TryLock(id: nat)
    | DeleteOwn(id: nat)
    | Sweep(id: nat, victims: set<Key>)
    | Lookup(id: nat)
    | HandlerWrite(id: nat, write: Write)
    | Insert(id: nat, status: int, body: Json)
    | Commit(id: nat, acknowledged: bool)
    | Abort(id: nat)

  const SWEEP_LIMIT: nat := 100

  predicate IsHash(hash: string) {
    |hash| == 64 && forall i :: 0 <= i < 64 ==> '0' <= hash[i] <= '9' || 'a' <= hash[i] <= 'f'
  }

  /** The CHECK constraints of the ledger table; `expires_at > created_at` asks for a positive ttl. */
  predicate Storable(key: Key, hash: string, ttl: int, status: int) {
    && 3 <= |key.procedure| <= 200 && 1 <= |key.key| <= 128 && IsHash(hash)
    && 100 <= status <= 599 && ttl > 0
  }

  predicate ChecksPass(t: Txn, status: int) {
    Storable(t.key, t.hash, t.ttl, status)
  }

  function LockId(s: State, k: Key): int {
    s.lockOf(LockIdentity(k))
  }

  predicate HoldsLock(p: Phase) {
    p != Begun && p != Decided(InProgress)
  }

  predicate InPhase(s: State, id: nat, p: Phase) {
    id in s.live && s.live[id].phase == p
  }

  /** Another transaction holds the row. */
  predicate RowBusy(s: State, k: Key, id: nat) {
    k in s.rowLocks && s.rowLocks[k] != id
  }

  predicate OwnExpired(s: State, t: Txn) {
    t.key in s.records && s.records[t.key].expires <= t.start
  }

  /** The row the lookup of `t` finds. */
  predicate Visible(s: State, t: Txn) {
    t.key in s.records && t.key !in t.deleted
  }

  /** `WHERE expires_at <= now() ORDER BY expires_at ... FOR UPDATE SKIP LOCKED` */
  function SweepRows(s: State, t: Txn): map<Key, SortKey> {
    map k | k in s.records && s.records[k].expires <= t.start && k !in s.rowLocks :: SortKey(s.records[k].expires, 0)
  }

  ghost predicate Enabled(s: State, step: Step) {
    match step
    case Tick(to) => to >= s.clock
    case Begin(_, _, _) => true
    case TryLock(id) => InPhase(s, id, Begun)
    case DeleteOwn(id) => InPhase(s, id, Locked) && (OwnExpired(s, s.live[id]) ==> !RowBusy(s, s.live[id].key, id))
    case Sweep(id, victims) => InPhase(s, id, Cleared) && IsFirstBatch(SweepRows(s, s.live[id]), SWEEP_LIMIT, victims)
    case Lookup(id) => InPhase(s, id, Swept) && (Visible(s, s.live[id]) ==> !RowBusy(s, s.live[id].key, id))
    case HandlerWrite(id, _) => id in s.live && s.live[id].phase.Running?
    case Insert(id, status, _) =>
      id in s.live && s.live[id].phase.Running? && !Visible(s, s.live[id]) && ChecksPass(s.live[id], status)
    case Commit(id, _) => id in s.live && (s.live[id].phase.Inserted? || s.live[id].phase.Decided?)
    case Abort(id) => id in s.live
  }

  function Move(s: State, id: nat, p: Phase): State
    requires id in s.live
  {
    s.(live := s.live[id := s.live[id].(phase := p)])
  }

  /** Takes row locks on `ks` for `id` and marks them deleted. */
  function MarkDeleted(s: State, id: nat, ks: set<Key>): State
    requires id in s.live
  {
    s.(live := s.live[id := s.live[id].(deleted := s.live[id].deleted + ks)],
       rowLocks := s.rowLocks + map k | k in ks :: id)
  }

  function LookupResult(s: State, t: Txn): Phase {
    if !Visible(s, t) then Running([])
    else if s.records[t.key].hash != t.hash then Decided(Conflict)
    else Decided(Replay(s.records[t.key].status, s.records[t.key].body))
  }

  /** Ends a transaction: its locks go, its effects stay or go with `s`. */
  function Release(s: State, id: nat): State {
    s.(live := s.live - {id},
       locks := map l | l in s.locks && s.locks[l] != id :: s.locks[l],
       rowLocks := map k | k in s.rowLocks && s.rowLocks[k] != id :: s.rowLocks[k])
  }

  function FinishedCall(s: State, id: nat, acknowledged: bool): Finished
    requires id in s.live && (s.live[id].phase.Inserted? || s.live[id].phase.Decided?)
  {
    var t := s.live[id];
    match t.phase
    case Inserted(writes, r, body) =>
      Finished(id, t.key, t.hash, Executed(r.status, body), t.start, t.ttl, t.looked, s.clock, Some(r), writes, acknowledged)
    case Decided(outcome) =>
      Finished(id, t.key, t.hash, outcome, t.start, t.ttl, t.looked, s.clock, None, [], acknowledged)
  }

  /** Makes the transaction's deletes, insert and product writes visible, all at once. */
  function Publish(s: State, id: nat, acknowledged: bool): State
    requires id in s.live && (s.live[id].phase.Inserted? || s.live[id].phase.Decided?)
  {
    var t := s.live[id];
    var kept := s.(records := s.records - t.deleted,
                   origin := s.origin - t.deleted,
                   history := s.history + [FinishedCall(s, id, acknowledged)]);
    if t.phase.Inserted? then
      kept.(records := kept.records[t.key := t.phase.record],
            origin := kept.origin[t.key := |s.history|],
            product := s.product + t.phase.writes)
    else kept
  }

  function AfterBegin(s: State, key: Key, hash: string, ttl: int): State {
    s.(live := s.live[s.nextId := Txn(key, hash, ttl, s.clock, Begun, {}, s.clock)], nextId := s.nextId + 1)
  }

  /** `pg_try_advisory_xact_lock` never waits. */
  function AfterTryLock(s: State, id: nat): State
    requires id in s.live
  {
    var l := LockId(s, s.live[id].key);
    if l in s.locks then Move(s, id, Decided(InProgress))
    else Move(s, id, Locked).(locks := s.locks[l := id])
  }

  function AfterDeleteOwn(s: State, id: nat): State
    requires id in s.live
  {
    Move(if OwnExpired(s, s.live[id]) then MarkDeleted(s, id, {s.live[id].key}) else s, id, Cleared)
  }

  function AfterSweep(s: State, id: nat, victims: set<Key>): State
    requires id in s.live
  {
    Move(MarkDeleted(s, id, victims), id, Swept)
  }

  /** `SELECT ... FOR UPDATE`: a found row is locked until the transaction ends. */
  function AfterLookup(s: State, id: nat): State
    requires id in s.live
  {
    var t := s.live[id];
    s.(live := s.live[id := t.(phase := LookupResult(s, t), looked := s.clock)],
       rowLocks := if Visible(s, t) then s.rowLocks[t.key := id] else s.rowLocks)
  }

  function AfterWrite(s: State, id: nat, w: Write): State
    requires id in s.live && s.live[id].phase.Running?
  {
    Move(s, id, Running(s.live[id].phase.writes + [w]))
  }

  function AfterInsert(s: State, id: nat, status: int, body: Json): State
    requires id in s.live && s.live[id].phase.Running?
  {
    var t := s.live[id];
    Move(s, id, Inserted(t.phase.writes, Record(t.hash, status, s.jsonb(body), t.start + t.ttl), body))
  }

  function Apply(s: State, step: Step): State
    requires Enabled(s, step)
  {
    match step
    case Tick(to) => s.(clock := to)
    case Begin(key, hash, ttl) => AfterBegin(s, key, hash, ttl)
    case TryLock(id) => AfterTryLock(s, id)
    case DeleteOwn(id) => AfterDeleteOwn(s, id)
    case Sweep(id, victims) => AfterSweep(s, id, victims)
    case Lookup(id) => AfterLookup(s, id)
    case HandlerWrite(id, w) => AfterWrite(s, id, w)
    case Insert(id, status, body) => AfterInsert(s, id, status, body)
    case Commit(id, acknowledged) => Release(Publish(s, id, acknowledged), id)
    case Abort(id) => Release(s, id)
  }

  ghost predicate Run(s: State, steps: seq<Step>, s': State)
    decreases |steps|
  {
    if steps == [] then s == s'
    else Enabled(s, steps[0]) && Run(Apply(s, steps[0]), steps[1..], s')
  }

  ghost predicate Initial(s: State) {
    && s.records == map[] && s.locks == map[] && s.rowLocks == map[] && s.live == map[]
    && s.product == [] && s.history == [] && s.origin == map[]
  }

  // ----- the invariant -----

  /** Advisory locks and their holders match. */
  ghost predicate LocksMatch(s: State) {
    && (forall id :: id in s.live && HoldsLock(s.live[id].phase) ==>
         LockId(s, s.live[id].key) in s.locks && s.locks[LockId(s, s.live[id].key)] == id)
    && (forall l :: l in s.locks ==>
         s.locks[l] in s.live && HoldsLock(s.live[s.locks[l]].phase) && LockId(s, s.live[s.locks[l]].key) == l)
  }

  /** Deleted rows are committed, expired and locked by their deleter. */
  ghost predicate RowLocksMatch(s: State) {
    && (forall k :: k in s.rowLocks ==> s.rowLocks[k] in s.live && k in s.records)
    && (forall id, k :: id in s.live && k in s.live[id].deleted ==>
         k in s.rowLocks && s.rowLocks[k] == id && s.records[k].expires <= s.live[id].start)
  }

  /** A row of its own key that the transaction still sees is alive: it expires after the transaction's start. */
  predicate SeesLiving(s: State, t: Txn) {
    Visible(s, t) ==> t.start < s.records[t.key].expires
  }

  /** The transaction has found and locked a living row that was committed before its lookup. */
  ghost predicate ReadsRow(s: State, id: nat)
    requires id in s.live
  {
    var t := s.live[id];
    && Visible(s, t) && SeesLiving(s, t) && t.key in s.rowLocks && s.rowLocks[t.key] == id
    && t.key in s.origin && s.origin[t.key] < |s.history| && s.history[s.origin[t.key]].committed <= t.looked
  }

  /** What each transaction knows stays true until it ends. */
  ghost predicate TxnSound(s: State, id: nat)
    requires id in s.live
  {
    var t := s.live[id];
    && t.start <= t.looked <= s.clock
    && match t.phase
       case Running(_) => !Visible(s, t)
       case Inserted(_, r, body) =>
         !Visible(s, t) && r.hash == t.hash && r.body == s.jsonb(body) && r.expires == t.start + t.ttl
       case Decided(Conflict) => ReadsRow(s, id) && s.records[t.key].hash != t.hash
       case Decided(Replay(status, body)) =>
         && ReadsRow(s, id)
         && s.records[t.key].hash == t.hash && s.records[t.key].status == status && s.records[t.key].body == body
       case Decided(Executed(_, _)) => false
       case Begun => t.deleted == {}
       case Locked => t.deleted == {}
       case Decided(InProgress) => true
       case _ => SeesLiving(s, t)
  }

  predicate IsExecution(f: Finished, k: Key) {
    f.outcome.Executed? && f.key == k
  }

  /** Entry `i` is the last execution of `k`. */
  predicate LastExecution(h: seq<Finished>, k: Key, i: int) {
    && 0 <= i < |h| && IsExecution(h[i], k)
    && forall m :: i < m < |h| ==> !IsExecution(h[m], k)
  }

  /** When an execution's stored result expires. */
  function Expiry(f: Finished): int {
    if f.stored.Some? then f.stored.value.expires else 0
  }

  /** An execution records its own request and status, its body as stored, and an expiry that counts
      from the start of its transaction. */
  ghost predicate RecordsItself(f: Finished, jsonb: Json -> Json) {
    if f.outcome.Executed? then
      && f.stored.Some? && f.stored.value.hash == f.hash && f.stored.value.status == f.outcome.status
      && f.stored.value.body == jsonb(f.outcome.body) && f.stored.value.expires == f.start + f.ttl
    else f.stored.None?
  }

  /** The table is what the executions in the history left, less what has expired. */
  ghost predicate Matches(records: map<Key, Record>, origin: map<Key, nat>, h: seq<Finished>, clock: int) {
    && origin.Keys == records.Keys
    && (forall k :: k in records ==> LastExecution(h, k, origin[k]) && h[origin[k]].stored == Some(records[k]))
    && (forall i :: 0 <= i < |h| && h[i].outcome.Executed? ==>
         (h[i].key in records && origin[h[i].key] == i) || Expiry(h[i]) <= clock)
  }

  ghost predicate HistoryMatches(s: State) {
    Matches(s.records, s.origin, s.history, s.clock)
  }

  predicate IsRunning(p: Phase) { p.Running? || p.Inserted? }

  /** A running handler started after every earlier execution of its key had expired. */
  ghost predicate RunsAfterExpiry(s: State) {
    forall id :: id in s.live && IsRunning(s.live[id].phase) ==>
      forall i :: 0 <= i < |s.history| && IsExecution(s.history[i], s.live[id].key) ==>
        Expiry(s.history[i]) <= s.live[id].looked
  }

  /** Committed executions of one key are apart: the later handler starts after the earlier expiry. */
  ghost predicate ExecutionsApart(h: seq<Finished>) {
    forall i, j :: 0 <= i < j < |h| && h[i].outcome.Executed? && IsExecution(h[j], h[i].key) ==> Expiry(h[i]) <= h[j].looked
  }

  predicate StoredIs(f: Finished, hash: string, status: int, body: Json) {
    f.stored.Some? && f.stored.value.hash == hash && f.stored.value.status == status && f.stored.value.body == body
  }

  predicate AnsweredFrom(h: seq<Finished>, j: nat, i: int)
    requires j < |h|
  {
    LastExecution(h[..j], h[j].key, i) && h[i].committed <= h[j].looked && h[j].start < Expiry(h[i])
  }

  /** A replay or conflict answers from the last execution of its key before it, which was committed
      by the time of the lookup and had not expired at the start of the call. */
  ghost predicate Answered(h: seq<Finished>, j: nat)
    requires j < |h|
  {
    match h[j].outcome
    case Replay(status, body) =>
      exists i :: AnsweredFrom(h, j, i) && StoredIs(h[i], h[j].hash, status, body)
    case Conflict => exists i :: AnsweredFrom(h, j, i) && h[i].stored.Some? && h[i].stored.value.hash != h[j].hash
    case _ => true
  }

  /** The writes of the executions, in commit order. */
  function Effects(h: seq<Finished>): seq<Write> {
    if h == [] then []
    else Effects(h[..|h| - 1]) + (if h[|h| - 1].outcome.Executed? then h[|h| - 1].writes else [])
  }

  ghost predicate IdsFresh(s: State) {
    && (forall id :: id in s.live ==> id < s.nextId)
    && (forall i :: 0 <= i < |s.history| ==> s.history[i].id < s.nextId && s.history[i].id !in s.live)
    && (forall i, j :: 0 <= i < j < |s.history| ==> s.history[i].id != s.history[j].id)
  }

  ghost predicate TxnsSound(s: State) {
    forall id :: id in s.live ==> TxnSound(s, id)
  }

  ghost predicate AllAnswered(s: State) {
    forall j :: 0 <= j < |s.history| ==>
      Answered(s.history, j) && s.history[j].looked <= s.history[j].committed <= s.clock
  }

  /** What holds of committed data alone. */
  ghost predicate LedgerSound(s: State) {
    && HistoryMatches(s) && ExecutionsApart(s.history) && AllAnswered(s) && s.product == Effects(s.history)
    && forall i :: 0 <= i < |s.history| ==> RecordsItself(s.history[i], s.jsonb)
  }

  ghost predicate Inv(s: State) {
    LocksMatch(s) && RowLocksMatch(s) && TxnsSound(s) && RunsAfterExpiry(s) && IdsFresh(s) && LedgerSound(s)
  }
}
