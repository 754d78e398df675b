/** Every interleaved run of the ledger machine is a run of a simple atomic map, and what callers may
    conclude from that. */
module LedgerRefinement {
  import opened Prelude
  import opened JsonText
  import opened LedgerMachine
  import opened LedgerSafety

  // ----- the simple specification -----

  type Ledger = map<Key, Record>

  /** One atomic event of the specification, at a point in real time. */
  datatype Event =
    | Forget(key: Key, at: int)
    | Answer(key: Key, hash: string, outcome: Outcome, stored: Option<Record>, start: int, at: int)

  predicate SpecEnabled(m: Ledger, e: Event) {
    match e
    case Forget(k, at) => k in m && m[k].expires <= at
    case Answer(k, hash, outcome, _, start, _) =>
      match outcome
      case Executed(status, _) => k !in m && e.stored.Some? && e.stored.value.hash == hash && e.stored.value.status == status
      case Replay(status, body) =>
        k in m && m[k].hash == hash && m[k].status == status && m[k].body == body && start < m[k].expires
      case Conflict => k in m && m[k].hash != hash && start < m[k].expires
      case InProgress => true
  }

  function SpecApply(m: Ledger, e: Event): Ledger {
    match e
    case Forget(k, _) => m - {k}
    case Answer(k, _, Executed(_, _), Some(row), _, _) => m[k := row]
    case _ => m
  }

  /** A run of the specification whose events happen in order between `from` and `to`. */
  ghost predicate SpecRun(m: Ledger, es: seq<Event>, m': Ledger, from: int, to: int)
    decreases |es|
  {
    if es == [] then m == m' && from <= to
    else SpecEnabled(m, es[0]) && from <= es[0].at && SpecRun(SpecApply(m, es[0]), es[1..], m', es[0].at, to)
  }

  function Answers(es: seq<Event>): seq<Event> {
    if es == [] then [] else (if es[0].Answer? then [es[0]] else []) + Answers(es[1..])
  }

  /** What the specification shows of a committed call. */
  function AnswerOf(f: Finished): Event {
    Answer(f.key, f.hash, f.outcome, f.stored, f.start, f.committed)
  }

  function AnswersOf(h: seq<Finished>): seq<Event> {
    seq(|h|, i requires 0 <= i < |h| => AnswerOf(h[i]))
  }

  // ----- simulation -----

  lemma {:induction false} AnswersAppend(a: seq<Event>, b: seq<Event>)
    ensures Answers(a + b) == Answers(a) + Answers(b)
  {
    if a == [] {
      assert a + b == b;
    } else {
      assert (a + b)[1..] == a[1..] + b;
      AnswersAppend(a[1..], b);
      Assoc(if a[0].Answer? then [a[0]] else [], Answers(a[1..]), Answers(b));
    }
  }

  lemma {:induction false} SpecRunAppend(m: Ledger, a: seq<Event>, m1: Ledger, b: seq<Event>, m2: Ledger, t0: int, t1: int, t2: int)
    requires SpecRun(m, a, m1, t0, t1) && SpecRun(m1, b, m2, t1, t2)
    ensures SpecRun(m, a + b, m2, t0, t2)
    ensures Answers(a + b) == Answers(a) + Answers(b)
    decreases |a|
  {
    AnswersAppend(a, b);
    if a == [] {
      assert a + b == b;
      SpecRunEarlier(m1, b, m2, t0, t1, t2);
    } else {
      SpecRunAppend(SpecApply(m, a[0]), a[1..], m1, b, m2, a[0].at, t1, t2);
      SpecRunCons(m, a[0], a[1..] + b, m2, t0, t2);
      assert a + b == [a[0]] + (a[1..] + b);
    }
  }

  lemma SpecRunCons(m: Ledger, e: Event, es: seq<Event>, m': Ledger, from: int, to: int)
    requires SpecEnabled(m, e) && from <= e.at && SpecRun(SpecApply(m, e), es, m', e.at, to)
    ensures SpecRun(m, [e] + es, m', from, to)
  {
    assert ([e] + es)[1..] == es;
  }

  lemma SpecRunEarlier(m: Ledger, es: seq<Event>, m': Ledger, t0: int, t1: int, t2: int)
    requires SpecRun(m, es, m', t1, t2) && t0 <= t1
    ensures SpecRun(m, es, m', t0, t2)
  {
  }

  /** Expired rows may be forgotten one by one. */
  lemma {:induction false} ForgetAll(m: Ledger, gone: set<Key>, at: int) returns (es: seq<Event>)
    requires forall k :: k in gone ==> k in m && m[k].expires <= at
    ensures SpecRun(m, es, m - gone, at, at) && Answers(es) == []
    decreases gone
  {
    if gone == {} {
      es := [];
      assert m - gone == m;
    } else {
      var k :| k in gone;
      var rest := ForgetAll(m - {k}, gone - {k}, at);
      es := [Forget(k, at)] + rest;
      assert (m - {k}) - (gone - {k}) == m - gone;
      assert es[1..] == rest;
    }
  }

  lemma SpecAnswer(m: Ledger, f: Finished, at: int)
    requires SpecEnabled(m, AnswerOf(f)) && f.committed == at
    ensures SpecRun(m, [AnswerOf(f)], SpecApply(m, AnswerOf(f)), at, at)
    ensures Answers([AnswerOf(f)]) == [AnswerOf(f)]
  {
  }

  /** Once the expired rows are gone, the specification can give the committed answer. */
  lemma CommitIsAllowed(s: State, id: nat, ack: bool)
    requires RowLocksMatch(s) && CanCommit(s, id) && TxnSound(s, id)
    ensures forall k :: k in s.live[id].deleted ==> k in s.records && s.records[k].expires <= s.clock
    ensures SpecEnabled(s.records - s.live[id].deleted, AnswerOf(FinishedCall(s, id, ack)))
    ensures AfterCommit(s, id, ack).records ==
            SpecApply(s.records - s.live[id].deleted, AnswerOf(FinishedCall(s, id, ack)))
  {
  }

  lemma SimulateCommit(s: State, id: nat, ack: bool) returns (es: seq<Event>)
    requires RowLocksMatch(s) && CanCommit(s, id) && TxnSound(s, id)
    ensures SpecRun(s.records, es, AfterCommit(s, id, ack).records, s.clock, s.clock)
    ensures Answers(es) == [AnswerOf(FinishedCall(s, id, ack))]
  {
    var gone, answer := s.live[id].deleted, AnswerOf(FinishedCall(s, id, ack));
    CommitIsAllowed(s, id, ack);
    var forgets := ForgetAll(s.records, gone, s.clock);
    SpecAnswer(s.records - gone, FinishedCall(s, id, ack), s.clock);
    SpecRunAppend(s.records, forgets, s.records - gone, [answer], SpecApply(s.records - gone, answer),
                  s.clock, s.clock, s.clock);
    es := forgets + [answer];
  }

  lemma SimulateStep(s: State, step: Step) returns (es: seq<Event>)
    requires Inv(s) && Enabled(s, step)
    ensures var s' := Apply(s, step);
            && SpecRun(s.records, es, s'.records, s.clock, s'.clock)
            && s.history <= s'.history && Answers(es) == AnswersOf(s'.history[|s.history|..])
  {
    if step.Commit? {
      assert TxnSound(s, step.id);
      es := SimulateCommit(s, step.id, step.acknowledged);
      var h := Apply(s, step).history;
      assert h == s.history + [FinishedCall(s, step.id, step.acknowledged)];
      assert h[|s.history|..] == [FinishedCall(s, step.id, step.acknowledged)];
    } else {
      QuietStep(s, step);
      es := [];
    }
  }

  /** Main result: whatever the interleaving, the committed table and the committed answers are those
      of a run of the atomic map. */
  lemma {:induction false} Simulates(s: State, steps: seq<Step>, s': State) returns (es: seq<Event>)
    requires Inv(s) && Run(s, steps, s')
    ensures SpecRun(s.records, es, s'.records, s.clock, s'.clock)
    ensures s.history <= s'.history
    ensures Answers(es) == AnswersOf(s'.history[|s.history|..])
    decreases |steps|
  {
    if steps == [] {
      es := [];
    } else {
      var s1 := Apply(s, steps[0]);
      var first := SimulateStep(s, steps[0]);
      StepKeeps(s, steps[0]);
      var rest := Simulates(s1, steps[1..], s');
      SpecRunAppend(s.records, first, s1.records, rest, s'.records, s.clock, s1.clock, s'.clock);
      es := first + rest;
      AnswersSplit(s.history, s1.history, s'.history);
    }
  }

  lemma AnswersSplit(a: seq<Finished>, b: seq<Finished>, c: seq<Finished>)
    requires a <= b <= c
    ensures AnswersOf(b[|a|..]) + AnswersOf(c[|b|..]) == AnswersOf(c[|a|..])
  {
  }

  // ----- what callers may conclude -----

  /** A state some run reaches from an empty database. */
  ghost predicate Reachable(s: State) {
    exists s0, steps :: Initial(s0) && Run(s0, steps, s)
  }

  lemma ReachableInv(s: State)
    requires Reachable(s)
    ensures Inv(s)
  {
    var s0, steps :| Initial(s0) && Run(s0, steps, s);
    RunKeeps(s0, steps, s);
  }

  /** Two committed executions of one key never overlap: the later handler starts, in real time, no
      earlier than the stored result of the former expires. The advisory lock function is arbitrary. */
  lemma OneLiveExecution(s: State, i: nat, j: nat)
    requires Reachable(s) && i < j < |s.history|
    requires s.history[i].outcome.Executed? && s.history[j].outcome.Executed? && s.history[i].key == s.history[j].key
    ensures Expiry(s.history[i]) <= s.history[j].looked <= s.history[j].committed
  {
    ReachableInv(s);
    assert Answered(s.history, j);
  }

  predicate IsSuccess(o: Outcome) { o.Executed? || o.Replay? }

  /** What a replay of an execution answers: its status, and its body as stored. */
  ghost function ReplayOf(s: State, f: Finished): Outcome
    requires f.outcome.Executed?
  {
    Replay(f.outcome.status, s.jsonb(f.outcome.body))
  }

  /** A stored result lives its ttl, counted from the start of the transaction that stored it. */
  lemma LivesItsTtl(s: State, i: nat)
    requires Reachable(s) && i < |s.history| && s.history[i].outcome.Executed?
    ensures Expiry(s.history[i]) == s.history[i].start + s.history[i].ttl
    ensures s.history[i].looked <= s.history[i].committed <= s.clock
  {
    ReachableInv(s);
    assert RecordsItself(s.history[i], s.jsonb);
  }

  /** Retry safety. Take any execution `i`, the first of its key or a later one. Every call with that key
      that commits after it and looks before its stored result expires, a retry after a lost reply
      included, executes nothing; with the same request it gets the stored status and body or is told to
      come back, and with another request it can only be refused. */
  lemma RetrySafety(s: State, i: nat, j: nat)
    requires Reachable(s) && i < j < |s.history| && s.history[i].outcome.Executed?
    requires s.history[j].key == s.history[i].key && s.history[j].looked < Expiry(s.history[i])
    ensures !s.history[j].outcome.Executed?
    ensures IsSuccess(s.history[j].outcome) ==>
              s.history[j].hash == s.history[i].hash && s.history[j].outcome == ReplayOf(s, s.history[i])
    ensures s.history[j].outcome.Conflict? ==> s.history[j].hash != s.history[i].hash
  {
    ReachableInv(s);
    assert Answered(s.history, j);
    assert RecordsItself(s.history[i], s.jsonb);
    match s.history[j].outcome {
      case Replay(status, body) =>
        var k :| AnsweredFrom(s.history, j, k) && StoredIs(s.history[k], s.history[j].hash, status, body);
        AnsweredFromLiving(s, i, j, k);
      case Conflict =>
        var k :| AnsweredFrom(s.history, j, k) && s.history[k].stored.Some?
                 && s.history[k].stored.value.hash != s.history[j].hash;
        AnsweredFromLiving(s, i, j, k);
      case _ =>
    }
  }

  /** While an execution's result is alive there is no later execution to answer from. */
  lemma AnsweredFromLiving(s: State, i: nat, j: nat, k: nat)
    requires Inv(s) && i < j < |s.history| && AnsweredFrom(s.history, j, k) && s.history[i].outcome.Executed?
    requires s.history[j].key == s.history[i].key && s.history[j].looked < Expiry(s.history[i])
    ensures i == k
  {
    var h := s.history;
    assert h[..j][k] == h[k] && h[..j][i] == h[i];
    assert Answered(h, k);
  }

  /** Every earlier execution of the key had expired when the call started. */
  ghost predicate AllExpired(h: seq<Finished>, k: Key, before: nat, start: int)
    requires before <= |h|
  {
    forall i :: 0 <= i < before && IsExecution(h[i], k) ==> Expiry(h[i]) <= start
  }

  /** What a replay or a conflict answers from is alive: an earlier execution of the key, not yet expired
      when the call started. */
  lemma AnswersAreAlive(s: State, j: nat) returns (i: nat)
    requires Reachable(s) && j < |s.history| && (s.history[j].outcome.Replay? || s.history[j].outcome.Conflict?)
    ensures i < j && IsExecution(s.history[i], s.history[j].key)
    ensures s.history[j].start < Expiry(s.history[i]) && s.history[i].committed <= s.history[j].looked
  {
    ReachableInv(s);
    assert Answered(s.history, j);
    var k :| AnsweredFrom(s.history, j, k);
    i := k;
  }

  /** A key is free again after its expiry: a committed call that got the lock and started when every
      earlier execution of its key had expired has executed, however many expired rows were in the way. */
  lemma FreeAgain(s: State, j: nat)
    requires Reachable(s) && j < |s.history| && !s.history[j].outcome.InProgress?
    requires AllExpired(s.history, s.history[j].key, j, s.history[j].start)
    ensures s.history[j].outcome.Executed?
  {
    if !s.history[j].outcome.Executed? { var i := AnswersAreAlive(s, j); }
  }

  /** The same at the lookup: it lets the handler run if every result of the key had expired when the call
      started, and only if every one has expired by now. */
  lemma LookupRuns(s: State, id: nat)
    requires Reachable(s) && Enabled(s, Lookup(id))
    ensures AllExpired(s.history, s.live[id].key, |s.history|, s.live[id].start) ==> AfterLookup(s, id).live[id].phase == Running([])
    ensures AfterLookup(s, id).live[id].phase == Running([]) ==> AllExpired(s.history, s.live[id].key, |s.history|, s.clock)
  {
    assert TxnSound(s, id) && HistoryMatches(s) && RowLocksMatch(s) by { ReachableInv(s); }
    if Visible(s, s.live[id]) { LivingRow(s, id); } else { AbsentMeansExpired(s, id); }
  }

  lemma LivingRow(s: State, id: nat)
    requires HistoryMatches(s) && InPhase(s, id, Swept) && TxnSound(s, id) && Visible(s, s.live[id])
    ensures !AllExpired(s.history, s.live[id].key, |s.history|, s.live[id].start)
  {
    var k := s.live[id].key;
    assert LastExecution(s.history, k, s.origin[k]);
  }

  /** No identifier is used twice: what has ended does not come back. */
  lemma EndedStep(s: State, step: Step, id: nat)
    requires Enabled(s, step) && id !in s.live && id < s.nextId
    ensures id !in Apply(s, step).live && id < Apply(s, step).nextId
  {
    match step
    case Sweep(_, _) =>
    case Lookup(_) =>
    case Commit(_, _) =>
    case _ =>
  }

  lemma {:induction false} NeverBack(s: State, steps: seq<Step>, s': State, id: nat)
    requires Run(s, steps, s') && id !in s.live && id < s.nextId
    ensures id !in s'.live
    decreases |steps|
  {
    if steps != [] {
      EndedStep(s, steps[0], id);
      NeverBack(Apply(s, steps[0]), steps[1..], s', id);
    }
  }

  lemma DeletedStep(s: State, step: Step, id: nat)
    requires Enabled(s, step) && id < s.nextId && id in s.live
    ensures id < Apply(s, step).nextId && (id in Apply(s, step).live ==> s.live[id].deleted <= Apply(s, step).live[id].deleted)
  {
    match step
    case DeleteOwn(_) =>
    case Sweep(_, _) =>
    case Lookup(_) =>
    case Commit(_, _) =>
    case _ =>
  }

  /** What a transaction has deleted stays deleted for as long as it lives. */
  lemma {:induction false} DeletedStays(s: State, steps: seq<Step>, s': State, id: nat)
    requires Run(s, steps, s') && id < s.nextId && id in s.live && id in s'.live
    ensures s.live[id].deleted <= s'.live[id].deleted
    decreases |steps|
  {
    if steps != [] {
      DeletedStep(s, steps[0], id);
      if id in Apply(s, steps[0]).live {
        DeletedStays(Apply(s, steps[0]), steps[1..], s', id);
      } else {
        NeverBack(Apply(s, steps[0]), steps[1..], s', id);
      }
    }
  }

  /** A row that the sweep of a transaction might take. */
  predicate Reclaimable(s: State, k: Key, start: int) {
    k in s.records && s.records[k].expires <= start && k !in s.rowLocks
  }

  /** A sweep takes expired rows that nobody holds, the oldest first, a hundred or all there are. */
  lemma SweepTakes(s: State, id: nat, victims: set<Key>)
    requires Enabled(s, Sweep(id, victims))
    ensures |victims| <= 100 && forall k :: k in victims ==> Reclaimable(s, k, s.live[id].start)
    ensures |victims| < 100 ==> forall k :: Reclaimable(s, k, s.live[id].start) ==> k in victims
    ensures forall k, other :: k in victims && Reclaimable(s, other, s.live[id].start) && other !in victims ==>
              s.records[k].expires <= s.records[other].expires
  {
    var rows := SweepRows(s, s.live[id]);
    if |victims| < 100 { WholeBatch(rows, victims); }
    forall k, other | k in victims && Reclaimable(s, other, s.live[id].start) && other !in victims
      ensures s.records[k].expires <= s.records[other].expires
    {
      assert other in rows.Keys - victims;
      assert KeyLe(rows[k], rows[other]);
    }
  }

  lemma CommitDropsDeleted(s: State, id: nat, ack: bool, k: Key)
    requires CanCommit(s, id) && k in s.live[id].deleted && k in AfterCommit(s, id, ack).records
    ensures k == s.live[id].key && s.live[id].phase.Inserted?
  {
  }

  /** And they are reclaimed: whatever happens in between, the commit of its transaction takes them out of
      the table, save for the row it writes itself. */
  lemma SweepReclaims(s: State, id: nat, victims: set<Key>, steps: seq<Step>, s': State, ack: bool)
    requires Reachable(s) && Enabled(s, Sweep(id, victims)) && Run(AfterSweep(s, id, victims), steps, s') && CanCommit(s', id)
    ensures forall k :: k in victims && k in AfterCommit(s', id, ack).records ==>
              k == s'.live[id].key && s'.live[id].phase.Inserted?
  {
    assert victims <= s'.live[id].deleted by {
      assert IdsFresh(s) by { ReachableInv(s); }
      DeletedStays(AfterSweep(s, id, victims), steps, s', id);
    }
    forall k | k in victims && k in AfterCommit(s', id, ack).records
      ensures k == s'.live[id].key && s'.live[id].phase.Inserted?
    {
      CommitDropsDeleted(s', id, ack, k);
    }
  }

  /** How many executions of a key have been committed. */
  function Executions(h: seq<Finished>, k: Key): nat {
    if h == [] then 0 else Executions(h[..|h| - 1], k) + (if IsExecution(h[|h| - 1], k) then 1 else 0)
  }

  lemma {:induction false} OneExecution(h: seq<Finished>, k: Key, i: nat)
    requires i < |h| && forall m :: 0 <= m < |h| ==> (IsExecution(h[m], k) <==> m == i)
    ensures Executions(h, k) == 1
  {
    var n := |h| - 1;
    if i < n {
      OneExecution(h[..n], k, i);
    } else {
      NoExecution(h[..n], k);
    }
  }

  lemma {:induction false} NoExecution(h: seq<Finished>, k: Key)
    requires forall m :: 0 <= m < |h| ==> !IsExecution(h[m], k)
    ensures Executions(h, k) == 0
  {
    if h != [] { NoExecution(h[..|h| - 1], k); }
  }

  /** Exactly once: from any execution on, as long as every call with its key looks before the stored
      result expires, that execution stays the only one, and every success is its replay. */
  lemma ExactlyOneEffect(s: State, i: nat, to: nat)
    requires Reachable(s) && i < to <= |s.history| && s.history[i].outcome.Executed?
    requires forall m :: i < m < to && s.history[m].key == s.history[i].key ==> s.history[m].looked < Expiry(s.history[i])
    ensures Executions(s.history[i..to], s.history[i].key) == 1
    ensures forall m :: i < m < to && s.history[m].key == s.history[i].key && IsSuccess(s.history[m].outcome) ==>
              s.history[m].outcome == ReplayOf(s, s.history[i])
  {
    var window, k := s.history[i..to], s.history[i].key;
    forall m | i < m < to && s.history[m].key == k
      ensures !s.history[m].outcome.Executed?
      ensures IsSuccess(s.history[m].outcome) ==> s.history[m].outcome == ReplayOf(s, s.history[i])
    {
      RetrySafety(s, i, m);
    }
    forall n | 0 <= n < |window| ensures IsExecution(window[n], k) <==> n == 0 {
      assert window[n] == s.history[i + n];
    }
    OneExecution(window, k, 0);
  }

  /** The execution behind a success: the success itself, or the one it replays. */
  predicate Behind(h: seq<Finished>, i: nat, j: nat) {
    i <= j < |h| && IsExecution(h[i], h[j].key) && forall m :: i < m < j ==> !IsExecution(h[m], h[j].key)
  }

  lemma OneBehind(h: seq<Finished>, i: nat, j: nat)
    requires Behind(h, i, j) && (i < j ==> !h[j].outcome.Executed?)
    ensures Executions(h[i..j + 1], h[j].key) == 1
  {
    var window := h[i..j + 1];
    forall n | 0 <= n < |window| ensures IsExecution(window[n], h[j].key) <==> n == 0 {
      assert window[n] == h[i + n];
    }
    OneExecution(window, h[j].key, 0);
  }

  lemma ReplayBehind(s: State, i: nat, j: nat, status: int, body: Json)
    requires Inv(s) && j < |s.history| && s.history[j].outcome == Replay(status, body)
    requires AnsweredFrom(s.history, j, i) && StoredIs(s.history[i], s.history[j].hash, status, body)
    ensures Behind(s.history, i, j) && i < j && s.history[i].hash == s.history[j].hash
    ensures s.history[j].outcome == ReplayOf(s, s.history[i])
  {
    var h := s.history;
    assert h[..j][i] == h[i] && RecordsItself(h[i], s.jsonb);
    forall m | i < m < j ensures !IsExecution(h[m], h[j].key) { assert h[..j][m] == h[m]; }
  }

  /** Every success, at whatever time, is an execution or replays the one execution between the two:
      same request, same status, the body as stored. */
  lemma SuccessHasExecution(s: State, j: nat) returns (i: nat)
    requires Reachable(s) && j < |s.history| && IsSuccess(s.history[j].outcome)
    ensures Behind(s.history, i, j) && s.history[i].hash == s.history[j].hash
    ensures i == j || s.history[j].outcome == ReplayOf(s, s.history[i])
    ensures Executions(s.history[i..j + 1], s.history[j].key) == 1
  {
    ReachableInv(s);
    assert Answered(s.history, j);
    match s.history[j].outcome {
      case Replay(status, body) =>
        var k :| AnsweredFrom(s.history, j, k) && StoredIs(s.history[k], s.history[j].hash, status, body);
        i := k;
        ReplayBehind(s, i, j, status, body);
      case Executed(_, _) => i := j;
    }
    OneBehind(s.history, i, j);
  }

  /** Product data change in one place only: the commit of an execution adds all its writes, together
      with its ledger record. Conflict, in-progress, replay, handler errors and aborts add none. */
  lemma AllOrNothing(s: State, step: Step)
    requires Reachable(s) && Enabled(s, step)
    ensures Apply(s, step).product ==
            s.product + (if step.Commit? && s.live[step.id].phase.Inserted? then s.live[step.id].phase.writes else [])
    ensures step.Commit? && s.live[step.id].phase.Inserted? ==>
              var t := s.live[step.id];
              t.key in Apply(s, step).records && Apply(s, step).records[t.key] == t.phase.record
              && Apply(s, step).history == s.history + [FinishedCall(s, step.id, step.acknowledged)]
    ensures Apply(s, step).product == Effects(Apply(s, step).history)
  {
    ReachableInv(s);
    StepKeeps(s, step);
    if !step.Commit? { QuietStep(s, step); }
  }

  /** The try-lock says `in_progress` exactly when another live transaction holds a lock with the same
      hash, so a hash collision can refuse a call for a while and do nothing else. */
  lemma BusyMeansContention(s: State, id: nat)
    requires Reachable(s) && InPhase(s, id, Begun)
    ensures AfterTryLock(s, id).live[id].phase == Decided(InProgress) <==>
            exists other :: other in s.live && other != id && HoldsLock(s.live[other].phase)
                            && LockId(s, s.live[other].key) == LockId(s, s.live[id].key)
    ensures AfterTryLock(s, id).live[id].phase != Decided(InProgress) ==> AfterTryLock(s, id).live[id].phase == Locked
  {
    ReachableInv(s);
    var l := LockId(s, s.live[id].key);
    if l in s.locks { assert s.locks[l] in s.live; }
  }

  lemma SplitAtColon(x: string, y: string, x': string, y': string)
    requires ':' !in x && ':' !in x' && x + ":" + y == x' + ":" + y'
    ensures x == x' && y == y'
  {
    var s := x + ":" + y;
    assert s[|x|] == ':' && s[|x'|] == ':';
    assert forall k :: 0 <= k < |x| ==> s[k] == x[k] && x[k] in x;
    assert forall k :: 0 <= k < |x'| ==> s[k] == x'[k] && x'[k] in x';
    assert x == s[..|x|] == x' && y == s[|x| + 1..] == y';
  }

  /** Calls under different keys do not get in each other's way: scopes and procedures hold no colon, so
      that with a hash function without collisions a call waits for its own key alone. */
  lemma KeysContendAlone(s: State, a: Key, b: Key)
    requires ':' !in a.scope && ':' !in a.procedure && ':' !in b.scope && ':' !in b.procedure
    requires forall x, y :: s.lockOf(x) == s.lockOf(y) ==> x == y
    ensures LockId(s, a) == LockId(s, b) <==> a == b
  {
    if LockId(s, a) == LockId(s, b) {
      assert a.scope + ":" + (a.procedure + ":" + a.key) == LockIdentity(a);
      assert b.scope + ":" + (b.procedure + ":" + b.key) == LockIdentity(b);
      SplitAtColon(a.scope, a.procedure + ":" + a.key, b.scope, b.procedure + ":" + b.key);
      SplitAtColon(a.procedure, a.key, b.procedure, b.key);
    }
  }

  /** The insert of a running handler's result never meets a row with its key. */
  lemma InsertNeverCollides(s: State, id: nat, status: int, body: Json)
    requires Reachable(s) && id in s.live && s.live[id].phase.Running?
    ensures Enabled(s, Insert(id, status, body)) <==> ChecksPass(s.live[id], status)
  {
    ReachableInv(s);
    assert TxnSound(s, id);
  }
}
