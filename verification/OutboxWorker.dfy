/** `OutboxWorker`: claims a batch, delivers its messages side by side, and settles each; with the
    durable-probe handler as its handler of created events. */
module OutboxWorker {
  import opened Prelude
  import OM = OutboxMachine
  import opened OutboxMachine
  import opened OutboxSafety
  import opened OutboxGuarantees
  import opened OutboxProgress
  import opened OutboxStore
  import opened ReferenceFlow
  import opened FlowRuns
  import opened DurableProbes

  // ----- retry delays -----

  function Pow2(n: nat): nat {
    if n == 0 then 1 else 2 * Pow2(n - 1)
  }

  function Min(a: int, b: int): int { if a <= b then a else b }

  /** The largest delay after this many attempts, in milliseconds. */
  function Ceiling(attemptCount: nat): int {
    var exponent := Min(attemptCount - 1, 10);
    Min(60_000, 250 * Pow2(if exponent < 0 then 0 else exponent))
  }

  /** A fraction of the ceiling between a half and one. */
  function Scaled(ceiling: real, random: real): real {
    ceiling * (0.5 + random / 2.0)
  }

  function Jittered(ceiling: int, random: real): int {
    Scaled(ceiling as real, random).Floor
  }

  function RetryDelay(attemptCount: nat, random: real): int {
    var delay := Jittered(Ceiling(attemptCount), random);
    if delay < 1 then 1 else delay
  }

  lemma {:induction false} PowerGrows(m: nat, n: nat)
    requires m <= n
    ensures 1 <= Pow2(m) <= Pow2(n)
  {
    if m < n { PowerGrows(m, n - 1); } else if n > 0 { PowerGrows(m - 1, n - 1); }
  }

  lemma CeilingRange(attemptCount: nat)
    ensures 250 <= Ceiling(attemptCount) <= 60_000 && Ceiling(attemptCount) % 2 == 0
    ensures Ceiling(attemptCount) <= Ceiling(attemptCount + 1)
  {
    var now, next := if attemptCount < 1 then 0 else Min(attemptCount - 1, 10), Min(attemptCount, 10);
    PowerGrows(0, now);
    PowerGrows(now, next);
    assert 250 * Pow2(now) == 2 * (125 * Pow2(now));
  }

  /** Each delay lies in the upper half of a ceiling that doubles from 250 ms up to one minute. */
  lemma RetryDelayBounds(attemptCount: nat, random: real)
    requires 0.0 <= random < 1.0
    ensures 250 <= Ceiling(attemptCount) <= 60_000 && Ceiling(attemptCount) <= Ceiling(attemptCount + 1)
    ensures Ceiling(attemptCount) <= 2 * RetryDelay(attemptCount, random)
    ensures RetryDelay(attemptCount, random) < Ceiling(attemptCount)
  {
    CeilingRange(attemptCount);
    JitteredBounds(Ceiling(attemptCount), random);
  }

  /** And every delay in that half may be drawn. */
  lemma EveryDelayDrawn(attemptCount: nat, delay: int) returns (random: real)
    requires Ceiling(attemptCount) <= 2 * delay < 2 * Ceiling(attemptCount)
    ensures 0.0 <= random < 1.0 && RetryDelay(attemptCount, random) == delay
  {
    CeilingRange(attemptCount);
    random := DrawnBy(Ceiling(attemptCount) as real, delay as real);
  }

  lemma DrawnBy(c: real, d: real) returns (random: real)
    requires 0.0 < c <= 2.0 * d < 2.0 * c
    ensures 0.0 <= random < 1.0 && Scaled(c, random) == d
  {
    random := (2.0 * d - c) / c;
    assert random * c == 2.0 * d - c;
    Spread(c, random);
    if random < 0.0 { TimesLess(c, random, 0.0); }
    if random >= 1.0 && random != 1.0 { TimesLess(c, 1.0, random); }
  }

  lemma Spread(c: real, random: real)
    ensures 2.0 * Scaled(c, random) == c + random * c
  {
  }

  /** The ceiling starts at 250 ms and doubles with each attempt until it reaches a minute. */
  lemma {:induction false} CeilingDoubles(attemptCount: nat)
    ensures Ceiling(0) == 250 && Ceiling(1) == 250
    ensures attemptCount >= 1 ==>
              Ceiling(attemptCount + 1) == (if 2 * Ceiling(attemptCount) <= 60_000 then 2 * Ceiling(attemptCount) else 60_000)
  {
    if attemptCount >= 9 {
      assert Pow2(8) == 256;
      PowerGrows(8, if attemptCount - 1 <= 10 then attemptCount - 1 else 10);
      PowerGrows(8, if attemptCount <= 10 then attemptCount else 10);
    }
  }

  lemma JitteredBounds(c: int, random: real)
    requires 0.0 <= random < 1.0 && c > 0 && c % 2 == 0
    ensures c <= 2 * Jittered(c, random) && Jittered(c, random) < c
  {
    JitterRange(c as real, random);
    FloorBetween(Scaled(c as real, random), c / 2, c);
  }

  lemma JitterRange(c: real, random: real)
    requires 0.0 <= random < 1.0 && c > 0.0
    ensures c / 2.0 <= Scaled(c, random) < c
  {
    TimesLess(c, 0.5 + random / 2.0, 1.0);
    if random > 0.0 { TimesLess(c, 0.5, 0.5 + random / 2.0); }
  }

  lemma FloorBetween(x: real, low: int, high: int)
    requires low as real <= x < high as real
    ensures low <= x.Floor < high
  {
  }

  lemma TimesLess(c: real, a: real, b: real)
    requires c > 0.0 && a < b
    ensures c * a < c * b
  {
  }

  // ----- one delivery -----

  /** What a delivery meets: how a handler other than the probes' ends, and what becomes of the probes'
      statement and of the two settling ones. */
  datatype Fate = Fate(handled: Result<(), string>, handling: Reply, completing: Reply, failing: Reply, random: real)

  /** `handled` says whether the handler returned. */
  datatype Phase =
    | Handling
    | Completing
    | Failing(error: string, handled: bool)
    | Resolved(handled: bool)
    | Rejected(reason: StoreError)

  predicate Done(phase: Phase) { phase.Resolved? || phase.Rejected? }

  function StepsLeft(phase: Phase): nat {
    match phase
    case Handling => 3
    case Completing => 2
    case Failing(_, _) => 1
    case _ => 0
  }

  function TotalLeft(phases: seq<Phase>): nat {
    if phases == [] then 0 else StepsLeft(phases[0]) + TotalLeft(phases[1..])
  }

  lemma {:induction false} LessLeft(phases: seq<Phase>, k: nat, phase: Phase)
    requires k < |phases| && StepsLeft(phase) < StepsLeft(phases[k])
    ensures TotalLeft(phases[k := phase]) < TotalLeft(phases)
  {
    var changed := phases[k := phase];
    if k > 0 {
      LessLeft(phases[1..], k - 1, phase);
      assert changed[1..] == phases[1..][k - 1 := phase];
    } else {
      assert changed[1..] == phases[1..];
    }
  }

  /** The reasons of the rejected deliveries, in order. */
  function Failures(phases: seq<Phase>): (r: seq<StoreError>)
    ensures r == [] <==> forall k :: 0 <= k < |phases| ==> !phases[k].Rejected?
  {
    if phases == [] then [] else (if phases[0].Rejected? then [phases[0].reason] else []) + Failures(phases[1..])
  }

  /** The name as it is, up to 200 characters. */
  function ErrorName(name: string): (r: string)
    ensures r <= name && |r| <= 200 && (|r| < 200 ==> r == name)
  {
    if |name| > 200 then name[..200] else name
  }

  /** The entry at `i` is the claim that returned this message. */
  predicate ReturnedBy(s: OM.State, i: nat, m: ClaimedMessage, worker: string) {
    && i < |s.log| && s.log[i].Claimed?
    && s.log[i].id == m.event.id && s.log[i].token == m.claimToken
    && s.log[i].worker == worker && s.log[i].attempt == m.attemptCount
  }

  /** The error that a registered handler's own failure is recorded under; any other has the name of what threw. */
  function KnownError(handlers: set<string>, m: ClaimedMessage, fate: Fate, handled: bool): Option<string> {
    if !handled && m.event.eventType in handlers && !IsCreated(m.event) && fate.handled.Err? then Some(ErrorName(fate.handled.error))
    else None
  }

  predicate Matches(error: string, known: Option<string>) {
    known.Some? ==> error == known.value
  }

  /** A settlement of the claim at `i`: processed, or failed with the right verdict and the right delay. */
  predicate Settles(s: OM.State, i: nat, j: nat, m: ClaimedMessage, delay: int, known: Option<string>, completed: bool) {
    && i < j < |s.log| && IsSettlement(s.log[j])
    && if completed then s.log[j] == Completed(m.event.id, m.claimToken, s.log[j].at)
       else
         && s.log[j].Failed? && s.log[j].id == m.event.id && s.log[j].token == m.claimToken
         && s.log[j].dead == (m.attemptCount >= s.maxAttempts)
         && s.log[j].retryAt == s.log[j].at + delay && Matches(s.log[j].error, known)
  }

  ghost predicate SettledAs(s: OM.State, i: nat, m: ClaimedMessage, delay: int, known: Option<string>, completed: bool) {
    exists j :: Settles(s, i, j, m, delay, known, completed)
  }

  /** How the handler of a message ended: with no handler registered it failed; a created event is
      confirmed when it returned, and when it did not, its statement was refused, or lost its reply, or the
      event was claimed before its own time; any other handler ends as it does. */
  ghost predicate HandledAs(f: Flow, i: nat, handlers: set<string>, m: ClaimedMessage, fate: Fate, handled: bool)
    requires i < |f.outbox.log| && f.outbox.log[i].Claimed?
  {
    if m.event.eventType !in handlers then !handled
    else if !IsCreated(m.event) then handled == fate.handled.Ok?
    else if handled then (m.event.id, m.claimToken) in f.confirmed
    else fate.handling.Arrives? ==> f.outbox.log[i].at < m.event.occurredAt
  }

  /** What a delivery's phase says about the tables: a resolved delivery has settled its claim, processed
      exactly when the handler and the completion succeeded, failed otherwise; a rejected one has lost
      its lease or its reply; and a completion that was sent leaves the lease to nobody. */
  ghost predicate Progress(f: Flow, i: nat, handlers: set<string>, m: ClaimedMessage, fate: Fate, phase: Phase)
    requires i < |f.outbox.log| && f.outbox.log[i].Claimed?
  {
    match phase
    case Handling => true
    case Completing => HandledAs(f, i, handlers, m, fate, true)
    case Failing(error, handled) =>
      && HandledAs(f, i, handlers, m, fate, handled) && Matches(error, KnownError(handlers, m, fate, handled))
      && (handled && !fate.completing.NeverSent? ==> !HoldsLease(f.outbox, i))
    case Resolved(handled) =>
      && HandledAs(f, i, handlers, m, fate, handled)
      && SettledAs(f.outbox, i, m, RetryDelay(m.attemptCount, fate.random), KnownError(handlers, m, fate, handled), handled && fate.completing.Arrives?)
    case Rejected(reason) =>
      if fate.failing.Arrives? then reason == LostOwnership && !HoldsLease(f.outbox, i) else reason == NoReply
  }

  /** Ownership, once lost, does not come back. */
  lemma LeaseStaysLost(s: OM.State, s': OM.State, i: nat)
    requires Later(s, s') && i < |s.log| && s.log[i].Claimed? && !HoldsLease(s, i)
    ensures !HoldsLease(s', i)
  {
    var id := s.log[i].id;
    if LastAbout(s'.log, id) == i {
      forall k | i < k < |s.log| ensures s.log[k].id != id { assert s'.log[k] == s.log[k]; }
      LastAboutIs(s.log, id, i);
    }
  }

  lemma SettledStays(s: OM.State, s': OM.State, i: nat, m: ClaimedMessage, delay: int, known: Option<string>, completed: bool)
    requires Later(s, s') && SettledAs(s, i, m, delay, known, completed)
    ensures SettledAs(s', i, m, delay, known, completed)
  {
    var j :| Settles(s, i, j, m, delay, known, completed);
    assert Settles(s', i, j, m, delay, known, completed);
  }

  /** A settlement is the end of its claim's lease. */
  lemma EntryEndsLease(s: OM.State, i: nat, e: Entry, s': OM.State)
    requires i < |s.log| && s.log[i].Claimed? && e.id == s.log[i].id && s'.log == s.log + [e]
    ensures !HoldsLease(s', i)
  {
    LastAboutGrown(s.log, e, e.id);
  }

  lemma {:induction false} SettlementsMore(log: seq<Entry>, log': seq<Entry>, j: nat)
    requires log <= log' && |log| <= j < |log'| && IsSettlement(log'[j])
    ensures Settlements(log') > Settlements(log)
    decreases |log'|
  {
    var shorter := log'[..|log'| - 1];
    if j < |log'| - 1 {
      SettlementsMore(log, shorter, j);
    } else {
      SettlementsNotFewer(log, shorter);
    }
  }

  lemma {:induction false} SettlementsNotFewer(log: seq<Entry>, log': seq<Entry>)
    requires log <= log'
    ensures Settlements(log') >= Settlements(log)
    decreases |log'|
  {
    if |log'| > |log| { SettlementsNotFewer(log, log'[..|log'| - 1]); } else { assert log' == log; }
  }

  /** The worker holds the message its claim returned, and its delivery has come this far. */
  ghost predicate Delivery(f: Flow, i: nat, handlers: set<string>, worker: string, m: ClaimedMessage, fate: Fate, phase: Phase) {
    && ReturnedBy(f.outbox, i, m, worker) && IsSent(f, m.event)
    && Progress(f, i, handlers, m, fate, phase)
  }

  lemma DeliveryStays(f: Flow, f': Flow, i: nat, handlers: set<string>, worker: string,
                      m: ClaimedMessage, fate: Fate, phase: Phase)
    requires Delivery(f, i, handlers, worker, m, fate, phase) && FlowLater(f, f')
    ensures Delivery(f', i, handlers, worker, m, fate, phase)
  {
    if !HoldsLease(f.outbox, i) { LeaseStaysLost(f.outbox, f'.outbox, i); }
    if phase.Resolved? { SettledStays(f.outbox, f'.outbox, i, m, RetryDelay(m.attemptCount, fate.random), KnownError(handlers, m, fate, phase.handled),
                   phase.handled && fate.completing.Arrives?); }
  }

  /** The first `n` deliveries of the batch claimed at `base`, by their place in it. */
  ghost predicate FirstDeliveries(f: Flow, base: nat, handlers: set<string>, worker: string,
                                  messages: seq<ClaimedMessage>, fates: nat -> Fate, phases: seq<Phase>, n: nat)
    requires n <= |messages| == |phases|
  {
    n == 0 || (Delivery(f, base + n - 1, handlers, worker, messages[n - 1], fates(n - 1), phases[n - 1])
               && FirstDeliveries(f, base, handlers, worker, messages, fates, phases, n - 1))
  }

  ghost predicate Deliveries(f: Flow, base: nat, handlers: set<string>, worker: string,
                             messages: seq<ClaimedMessage>, fates: nat -> Fate, phases: seq<Phase>)
  {
    |phases| == |messages| && FirstDeliveries(f, base, handlers, worker, messages, fates, phases, |messages|)
  }

  /** `Deliveries` says of every message of the batch what its delivery has come to. */
  lemma {:induction false} DeliveryOf(f: Flow, base: nat, handlers: set<string>, worker: string,
                                      messages: seq<ClaimedMessage>, fates: nat -> Fate, phases: seq<Phase>, n: nat, k: nat)
    requires k < n <= |messages| == |phases| && FirstDeliveries(f, base, handlers, worker, messages, fates, phases, n)
    ensures Delivery(f, base + k, handlers, worker, messages[k], fates(k), phases[k])
  {
    if k < n - 1 { DeliveryOf(f, base, handlers, worker, messages, fates, phases, n - 1, k); }
  }

  /** When one delivery moves and time passes, the others are as they were. */
  lemma {:induction false} DeliveriesMove(f: Flow, f': Flow, base: nat, handlers: set<string>, worker: string,
                                          messages: seq<ClaimedMessage>, fates: nat -> Fate, phases: seq<Phase>,
                                          n: nat, k: nat, next: Phase)
    requires k < |phases| && n <= |messages| == |phases| && FlowLater(f, f')
    requires FirstDeliveries(f, base, handlers, worker, messages, fates, phases, n)
    requires Delivery(f', base + k, handlers, worker, messages[k], fates(k), next)
    ensures FirstDeliveries(f', base, handlers, worker, messages, fates, phases[k := next], n)
  {
    if n > 0 {
      DeliveriesMove(f, f', base, handlers, worker, messages, fates, phases, n - 1, k, next);
      if n - 1 != k {
        DeliveryStays(f, f', base + n - 1, handlers, worker, messages[n - 1], fates(n - 1), phases[n - 1]);
      }
    }
  }

  /** Freshly claimed messages are the claims just logged. */
  lemma {:induction false} DeliveriesStart(f: Flow, f': Flow, messages: seq<ClaimedMessage>, fates: nat -> Fate,
                                           handlers: set<string>, worker: string, now: int, leaseMs: int, n: nat)
    requires f'.outbox.log == f.outbox.log + Entries(messages, worker, now, leaseMs) && n <= |messages|
    requires forall k :: 0 <= k < |messages| ==> IsSent(f', messages[k].event)
    ensures FirstDeliveries(f', |f.outbox.log|, handlers, worker, messages, fates, seq(|messages|, _ => Handling), n)
  {
    if n > 0 {
      DeliveriesStart(f, f', messages, fates, handlers, worker, now, leaseMs, n - 1);
      assert f'.outbox.log[|f.outbox.log| + n - 1] == Entries(messages, worker, now, leaseMs)[n - 1];
      assert IsSent(f', messages[n - 1].event);
    }
  }

  predicate IsSent(f: Flow, e: Event) {
    e.id in f.sent && f.sent[e.id] == e
  }

  /** A claim returns events as they were appended. */
  lemma ClaimedWereSent(f: Flow, f': Flow, messages: seq<ClaimedMessage>)
    requires ReachableFlow(f) && FlowLater(f, f')
    requires forall k :: 0 <= k < |messages| ==> Selected(f.outbox.table, messages[k].event)
    ensures forall k :: 0 <= k < |messages| ==> IsSent(f', messages[k].event)
  {
    ReachableFlowInv(f);
    forall k | 0 <= k < |messages| ensures IsSent(f', messages[k].event) {
      assert Selected(f.outbox.table, messages[k].event);
    }
  }

  // ----- single steps, as lemmas about the flow -----

  /** The statement of the probes' handler succeeds on an appended created event exactly when the probe is
      delivered already or the event's own time has come: the version is known, the row is there, and only
      its check can fail. */
  lemma HandlerReturnsExactly(f: Flow, id: Id)
    requires ReachableFlow(f) && AboutProbe(f, id)
    ensures HandlerReturns(f, f.sent[id]) <==> IsDelivered(f, id) || f.sent[id].occurredAt <= f.outbox.clock
  {
    ReachableFlowInv(f);
    assert Announces(f, f.sent[id]);
  }

  /** So when that statement is executed and fails, the event's time is still to come. */
  lemma HandlerFailsEarly(f: Flow, id: Id, i: nat)
    requires ReachableFlow(f) && AboutProbe(f, id) && !HandlerReturns(f, f.sent[id])
    requires i < |f.outbox.log| && f.outbox.log[i].Claimed?
    ensures f.outbox.log[i].at <= f.outbox.clock < f.sent[id].occurredAt
  {
    HandlerReturnsExactly(f, id);
    assert TimesPast(f.outbox) by { ReachableFlowInv(f); }
  }

  /** A claim's token stands for one claim, so there is one attempt to know of it. */
  lemma OneAttempt(f: Flow, i: nat, m: ClaimedMessage, worker: string)
    requires ReachableFlow(f) && ReturnedBy(f.outbox, i, m, worker)
    ensures KnowsClaim(f.outbox.log, m.event.id, m.claimToken, worker, m.attemptCount)
    ensures forall attempt: nat :: KnowsClaim(f.outbox.log, m.event.id, m.claimToken, worker, attempt) ==> attempt == m.attemptCount
  {
    assert TokensUnique(f.outbox) by { ReachableFlowInv(f); }
    var log := f.outbox.log;
    forall attempt: nat | KnowsClaim(log, m.event.id, m.claimToken, worker, attempt) ensures attempt == m.attemptCount {
      var j :| 0 <= j < |log| && log[j].Claimed? && log[j].token == m.claimToken && log[j].attempt == attempt;
    }
  }

  /** After a completion was sent, its claim is settled or had lost its lease; either way it is over. */
  lemma CompletionEnds(f: Flow, i: nat, m: ClaimedMessage, worker: string, delay: int, known: Option<string>)
    requires ReachableFlow(f) && ReturnedBy(f.outbox, i, m, worker)
    ensures var s' := CompleteOne(f.outbox, m.event.id, m.claimToken, worker);
            !HoldsLease(s', i) && (OwnsIn(f.outbox, m, worker) ==> SettledAs(s', i, m, delay, known, true))
  {
    ReachableFlowInv(f);
    var s, s' := f.outbox, CompleteOne(f.outbox, m.event.id, m.claimToken, worker);
    GuardIsOwnership(s, i);
    if HoldsLease(s, i) {
      EntryEndsLease(s, i, Completed(m.event.id, m.claimToken, s.clock), s');
      assert Settles(s', i, |s.log|, m, delay, known, true);
    }
  }

  lemma FailureEnds(f: Flow, i: nat, m: ClaimedMessage, worker: string, delay: int, error: string, known: Option<string>)
    requires ReachableFlow(f) && ReturnedBy(f.outbox, i, m, worker) && Matches(error, known)
    ensures var dead := m.attemptCount >= f.outbox.maxAttempts;
            var s' := FailOne(f.outbox, m.event.id, m.claimToken, worker, dead, delay, error);
            !HoldsLease(s', i) && (OwnsIn(f.outbox, m, worker) ==> SettledAs(s', i, m, delay, known, false))
  {
    assert HoldsLease(f.outbox, i) <==> OwnsIn(f.outbox, m, worker) by {
      ReachableFlowInv(f);
      GuardIsOwnership(f.outbox, i);
    }
    if OwnsIn(f.outbox, m, worker) { OwnerFails(f.outbox, i, m, worker, delay, error, known); }
  }

  lemma OwnerFails(s: OM.State, i: nat, m: ClaimedMessage, worker: string, delay: int, error: string, known: Option<string>)
    requires ReturnedBy(s, i, m, worker) && OwnsIn(s, m, worker) && Matches(error, known)
    ensures var s' := FailOne(s, m.event.id, m.claimToken, worker, m.attemptCount >= s.maxAttempts, delay, error);
            !HoldsLease(s', i) && SettledAs(s', i, m, delay, known, false)
  {
    var dead := m.attemptCount >= s.maxAttempts;
    var s' := FailOne(s, m.event.id, m.claimToken, worker, dead, delay, error);
    EntryEndsLease(s, i, Failed(m.event.id, m.claimToken, s.clock, dead, s.clock + delay, error), s');
    assert Settles(s', i, |s.log|, m, delay, known, false);
  }

  predicate OwnsIn(s: OM.State, m: ClaimedMessage, worker: string) {
    m.event.id in s.table && Owned(s.table[m.event.id], m.claimToken, worker, s.clock)
  }

  /** A session took this step: nothing went back, and the tables moved along a run. */
  lemma Stepped(f: Flow, step: FlowStep, quiet: bool)
    requires ReachableFlow(f) && EnabledFlow(f, step) && (quiet ==> QuietStep(step))
    ensures ReachableFlow(ApplyFlow(f, step)) && FlowLater(f, ApplyFlow(f, step)) && Leads(f, ApplyFlow(f, step), quiet)
  {
    ReachableFlowInv(f);
    FlowStepLater(f, step);
    LeadsStep(f, step, quiet);
    LeadsStep(f, step, false);
    LeadsReachable(f, ApplyFlow(f, step));
  }

  /** What a completion does to a delivery, sent and not sent. */
  lemma CompletionStep(f: Flow, i: nat, handlers: set<string>, worker: string, m: ClaimedMessage, fate: Fate, quiet: bool)
    requires ReachableFlow(f) && Delivery(f, i, handlers, worker, m, fate, Completing)
    ensures var f' := f.(outbox := CompleteOne(f.outbox, m.event.id, m.claimToken, worker));
            && ReachableFlow(f') && FlowLater(f, f') && Leads(f, f', quiet)
            && (!fate.completing.NeverSent? ==> Delivery(f', i, handlers, worker, m, fate, Failing("Error", true)))
            && (OwnsIn(f.outbox, m, worker) && fate.completing.Arrives? ==> Delivery(f', i, handlers, worker, m, fate, Resolved(true)))
  {
    Stepped(f, Outbox(Complete(m.event.id, m.claimToken, worker)), quiet);
    CompletionEnds(f, i, m, worker, RetryDelay(m.attemptCount, fate.random), KnownError(handlers, m, fate, true));
  }

  /** The same for the fallback. */
  lemma FailureStep(f: Flow, i: nat, handlers: set<string>, worker: string, m: ClaimedMessage, fate: Fate,
                    error: string, handled: bool, quiet: bool)
    requires ReachableFlow(f) && Delivery(f, i, handlers, worker, m, fate, Failing(error, handled))
    ensures var dead, delay := m.attemptCount >= f.outbox.maxAttempts, RetryDelay(m.attemptCount, fate.random);
            var f' := f.(outbox := FailOne(f.outbox, m.event.id, m.claimToken, worker, dead, delay, error));
            && ReachableFlow(f') && FlowLater(f, f') && Leads(f, f', quiet)
            && Delivery(f', i, handlers, worker, m, fate, Rejected(if fate.failing.Arrives? then LostOwnership else NoReply))
            && (OwnsIn(f.outbox, m, worker) ==> Delivery(f', i, handlers, worker, m, fate, Resolved(handled)))
  {
    OneAttempt(f, i, m, worker);
    var delay := RetryDelay(m.attemptCount, fate.random);
    Stepped(f, Outbox(Fail(m.event.id, m.claimToken, worker, m.attemptCount, delay, error)), quiet);
    FailureEnds(f, i, m, worker, delay, error, KnownError(handlers, m, fate, handled));
    OwnerNeverHandled(f, i, m, worker, fate, handled);
  }

  /** Whoever still owns the message after a failed attempt has not had a completion accepted. */
  lemma OwnerNeverHandled(f: Flow, i: nat, m: ClaimedMessage, worker: string, fate: Fate, handled: bool)
    requires ReachableFlow(f) && ReturnedBy(f.outbox, i, m, worker)
    requires handled && !fate.completing.NeverSent? ==> !HoldsLease(f.outbox, i)
    ensures OwnsIn(f.outbox, m, worker) ==> !(handled && fate.completing.Arrives?)
  {
    ReachableFlowInv(f);
    GuardIsOwnership(f.outbox, i);
  }

  /** Why a round throws: its claim did, or deliveries were rejected, or the poll's maintenance threw. */
  datatype RoundError = ClaimFailed(reason: StoreError) | Rejections(reasons: seq<StoreError>) | MaintenanceFailed

  datatype Maintenance = Maintenance(batch: nat, deadLetteredBefore: int, processedBefore: int, purging: Reply, inspecting: Reply)

  /** What a poll meets: the wait before it, the maintenance if it is due, and the fates of its claim and of
      its deliveries. */
  datatype Plan = Plan(wait: nat, maintain: Option<Maintenance>, claiming: Reply, fates: nat -> Fate)

  class OutboxWorker {
    const app: ReferenceDurableProbes
    const store: PostgresOutboxStore
    const handlers: set<string> // the event types with a registered handler
    const batchSize: nat
    const leaseMs: int
    const workerId: string

    constructor (app: ReferenceDurableProbes, handlers: set<string>, batchSize: nat, leaseMs: int, workerId: string)
      ensures this.app == app && this.store == app.outbox && this.handlers == handlers && this.batchSize == batchSize
      ensures this.leaseMs == leaseMs && this.workerId == workerId
    {
      this.app, this.store := app, app.outbox;
      this.handlers, this.batchSize, this.leaseMs, this.workerId := handlers, batchSize, leaseMs, workerId;
    }

    ghost predicate Ready()
      reads app, app.outbox
    {
      store == app.outbox && leaseMs > 0 && ReachableFlow(app.Current())
    }

    /** Since `f` the tables have moved along a run of the flow, quiet if asked, and nothing went back. */
    ghost predicate Moved(f: Flow, quiet: bool)
      reads app, app.outbox
    {
      Ready() && FlowLater(f, app.Current()) && Leads(f, app.Current(), quiet)
    }

    lemma MovedNowhere(quiet: bool)
      requires Ready()
      ensures Moved(app.Current(), quiet)
    {
      LeadsNowhere(app.Current(), quiet);
    }

    /** One statement of a delivery. */
    method Advance(m: ClaimedMessage, ghost i: nat, fate: Fate, phase: Phase, ghost quiet: bool) returns (next: Phase)
      requires Ready() && Delivery(app.Current(), i, handlers, workerId, m, fate, phase) && !Done(phase)
      requires 0.0 <= fate.random < 1.0
      modifies app, app.outbox
      ensures Moved(old(app.Current()), quiet) && Delivery(app.Current(), i, handlers, workerId, m, fate, next)
      ensures StepsLeft(next) < StepsLeft(phase)
    {
      match phase {
        case Handling => next := CallHandler(m, i, fate, quiet);
        case Completing => next := CompleteOrFail(m, i, fate, quiet);
        case Failing(error, handled) => next := RecordFailure(m, i, fate, error, handled, quiet);
      }
    }

    /** The registered handler, if there is one. */
    method CallHandler(m: ClaimedMessage, ghost i: nat, fate: Fate, ghost quiet: bool) returns (next: Phase)
      requires Ready() && Delivery(app.Current(), i, handlers, workerId, m, fate, Handling)
      modifies app, app.outbox
      ensures Moved(old(app.Current()), quiet) && Delivery(app.Current(), i, handlers, workerId, m, fate, next)
      ensures StepsLeft(next) < StepsLeft(Handling)
    {
      if m.event.eventType in handlers && IsCreated(m.event) {
        next := HandleProbe(m, i, fate, quiet);
      } else {
        MovedNowhere(quiet);
        if m.event.eventType !in handlers {
          next := Failing("Error", false);
        } else if fate.handled.Err? {
          next := Failing(ErrorName(fate.handled.error), false);
        } else {
          next := Completing;
        }
      }
    }

    /** The probes' handler, a statement of its own. */
    method HandleProbe(m: ClaimedMessage, ghost i: nat, fate: Fate, ghost quiet: bool) returns (next: Phase)
      requires Ready() && Delivery(app.Current(), i, handlers, workerId, m, fate, Handling)
      requires m.event.eventType in handlers && IsCreated(m.event)
      modifies app, app.outbox
      ensures Moved(old(app.Current()), quiet) && Delivery(app.Current(), i, handlers, workerId, m, fate, next)
      ensures StepsLeft(next) < StepsLeft(Handling)
    {
      ghost var f := app.Current();
      assert HasClaim(f.outbox.log, m.event.id, m.claimToken);
      Stepped(f, Handle(m.event.id, m.claimToken, fate.handling.Arrives?), quiet);
      MovedNowhere(quiet);
      if !HandlerReturns(f, m.event) {
        HandlerFailsEarly(f, m.event.id, i);
      }
      var error := app.HandleCreated(m, fate.handling);
      next := if error.None? then Completing else Failing("Error", false);
    }

    /** `complete`, with the fallback when it throws. */
    method CompleteOrFail(m: ClaimedMessage, ghost i: nat, fate: Fate, ghost quiet: bool) returns (next: Phase)
      requires Ready() && Delivery(app.Current(), i, handlers, workerId, m, fate, Completing)
      modifies app, app.outbox
      ensures Moved(old(app.Current()), quiet) && Delivery(app.Current(), i, handlers, workerId, m, fate, next)
      ensures next == Resolved(true) || next == Failing("Error", true)
    {
      CompletionStep(app.Current(), i, handlers, workerId, m, fate, quiet);
      MovedNowhere(quiet);
      var r := store.Complete(m.event.id, m.claimToken, workerId, fate.completing);
      next := if r.Ok? then Resolved(true) else Failing("Error", true);
    }

    /** The fallback: `fail`, whose own error rejects the delivery. */
    method RecordFailure(m: ClaimedMessage, ghost i: nat, fate: Fate, error: string, handled: bool, ghost quiet: bool)
      returns (next: Phase)
      requires Ready() && Delivery(app.Current(), i, handlers, workerId, m, fate, Failing(error, handled))
      requires 0.0 <= fate.random < 1.0
      modifies app, app.outbox
      ensures Moved(old(app.Current()), quiet) && Delivery(app.Current(), i, handlers, workerId, m, fate, next)
      ensures next == Resolved(handled) || next.Rejected?
    {
      var deadLetter := m.attemptCount >= store.maxAttempts;
      var delay := RetryDelay(m.attemptCount, fate.random);
      FailureStep(app.Current(), i, handlers, workerId, m, fate, error, handled, quiet);
      MovedNowhere(quiet);
      var r := store.Fail(m.event.id, m.claimToken, workerId, deadLetter, delay, error, fate.failing);
      next := if r.Ok? then Resolved(handled) else Rejected(r.error);
    }

    /** Whatever others do, and then one statement of a delivery. */
    method Turn(m: ClaimedMessage, ghost i: nat, fate: Fate, phase: Phase, ghost quiet: bool) returns (next: Phase)
      requires Ready() && Delivery(app.Current(), i, handlers, workerId, m, fate, phase) && !Done(phase)
      requires 0.0 <= fate.random < 1.0
      modifies app, app.outbox
      ensures Moved(old(app.Current()), quiet) && Delivery(app.Current(), i, handlers, workerId, m, fate, next)
      ensures StepsLeft(next) < StepsLeft(phase)
    {
      app.OtherSessions(quiet);
      ghost var f := app.Current();
      DeliveryStays(old(app.Current()), f, i, handlers, workerId, m, fate, phase);
      next := Advance(m, i, fate, phase, quiet);
      LeadsOn(old(app.Current()), f, app.Current(), quiet);
    }

    method Move(messages: seq<ClaimedMessage>, ghost base: nat, fates: nat -> Fate, phases: seq<Phase>, k: nat, ghost quiet: bool)
      returns (next: Phase)
      requires Ready() && Deliveries(app.Current(), base, handlers, workerId, messages, fates, phases)
      requires k < |phases| && !Done(phases[k]) && 0.0 <= fates(k).random < 1.0
      modifies app, app.outbox
      ensures Moved(old(app.Current()), quiet) && StepsLeft(next) < StepsLeft(phases[k])
      ensures Deliveries(app.Current(), base, handlers, workerId, messages, fates, phases[k := next])
    {
      DeliveryOf(app.Current(), base, handlers, workerId, messages, fates, phases, |messages|, k);
      next := Turn(messages[k], base + k, fates(k), phases[k], quiet);
      DeliveriesMove(old(app.Current()), app.Current(), base, handlers, workerId, messages, fates, phases, |messages|, k, next);
    }

    /** `Promise.allSettled` over the deliveries: any unfinished one moves next, and other sessions act
        in between. */
    method DeliverAll(messages: seq<ClaimedMessage>, ghost base: nat, fates: nat -> Fate, ghost quiet: bool)
      returns (phases: seq<Phase>)
      requires forall k :: 0.0 <= fates(k).random < 1.0
      requires Ready() && Deliveries(app.Current(), base, handlers, workerId, messages, fates, seq(|messages|, _ => Handling))
      modifies app, app.outbox
      ensures Moved(old(app.Current()), quiet)
      ensures Deliveries(app.Current(), base, handlers, workerId, messages, fates, phases)
      ensures forall k :: 0 <= k < |phases| ==> Done(phases[k])
    {
      phases := seq(|messages|, _ => Handling);
      MovedNowhere(quiet);
      while exists k :: 0 <= k < |phases| && !Done(phases[k])
        invariant Moved(old(app.Current()), quiet)
        invariant Deliveries(app.Current(), base, handlers, workerId, messages, fates, phases)
        decreases TotalLeft(phases)
      {
        var k :| 0 <= k < |phases| && !Done(phases[k]);
        ghost var f := app.Current();
        var next := Move(messages, base, fates, phases, k, quiet);
        LeadsOn(old(app.Current()), f, app.Current(), quiet);
        LessLeft(phases, k, next);
        phases := phases[k := next];
      }
    }

    /** The claim of a round, with the leases it took even if nobody learns of them. */
    method ClaimBatch(now: int, reply: Reply, fates: nat -> Fate, ghost quiet: bool)
      returns (r: Result<seq<ClaimedMessage>, StoreError>, ghost claimed: seq<ClaimedMessage>)
      requires Ready() && now <= store.clock
      modifies app, app.outbox
      ensures Moved(old(app.Current()), quiet)
      ensures r == if reply.Arrives? then Ok(claimed) else Err(NoReply)
      ensures reply.NeverSent? ==> app.Current() == old(app.Current()) && claimed == []
      ensures !reply.NeverSent? ==> Claims(old(app.Current()).outbox, app.Current().outbox, claimed, batchSize, leaseMs, workerId, now)
      ensures Deliveries(app.Current(), |old(app.Current()).outbox.log|, handlers, workerId, claimed, fates,
                         seq(|claimed|, _ => Handling))
      ensures !reply.NeverSent? && batchSize > 0 && AllDue(old(app.Current()).outbox, now) && HasPending(old(app.Current()).outbox) ==>
                |claimed| > 0
    {
      ghost var f := app.Current();
      MovedNowhere(quiet);
      assert Inv(store.Db()) by { ReachableFlowInv(f); }
      r, claimed := store.Claim(batchSize, leaseMs, workerId, now, reply);
      if !reply.NeverSent? {
        ClaimedBatch(f, app.Current(), claimed, fates, now, quiet);
      }
    }

    lemma ClaimedBatch(f: Flow, f': Flow, messages: seq<ClaimedMessage>, fates: nat -> Fate, now: int, quiet: bool)
      requires ReachableFlow(f) && f' == f.(outbox := f'.outbox)
      requires Claims(f.outbox, f'.outbox, messages, batchSize, leaseMs, workerId, now)
      ensures ReachableFlow(f') && FlowLater(f, f') && Leads(f, f', quiet)
      ensures Deliveries(f', |f.outbox.log|, handlers, workerId, messages, fates, seq(|messages|, _ => Handling))
      ensures batchSize > 0 && AllDue(f.outbox, now) && HasPending(f.outbox) ==> |messages| > 0
    {
      var claim := Claim(IdsOf(messages), batchSize, leaseMs, workerId, now);
      Stepped(f, Outbox(claim), quiet);
      ClaimedWereSent(f, f', messages);
      DeliveriesStart(f, f', messages, fates, handlers, workerId, now, leaseMs, |messages|);
      if batchSize > 0 && AllDue(f.outbox, now) && HasPending(f.outbox) { ClaimFindsWork(f.outbox, claim); }
    }

    /** `runOnce`, whose claim runs in a transaction started at `now`. The tables move along a run of the
        flow: in particular this worker completes a created event only after its handler returned. When the
        claim throws the round throws the same, and whatever it claimed is left to its leases. Otherwise
        every delivery ends resolved or rejected as `Progress` says, the round throws exactly the rejections'
        reasons, a round without rejections that claimed something has settled something, and a round that
        found everything due claims something if anything is pending. */
    method RunOnce(now: int, aborted: bool, claiming: Reply, fates: nat -> Fate, ghost quiet: bool)
      returns (r: Result<nat, RoundError>, deliveries: seq<Phase>, ghost claimed: seq<ClaimedMessage>)
      requires Ready() && now <= store.clock
      requires forall k :: 0.0 <= fates(k).random < 1.0
      modifies app, app.outbox
      ensures Moved(old(app.Current()), quiet)
      ensures aborted ==> r == Ok(0) && claimed == [] && app.Current() == old(app.Current())
      ensures !aborted && claiming.NeverSent? ==> claimed == [] && app.Current() == old(app.Current())
      ensures !aborted && claiming.Lost? ==>
                Claims(old(app.Current()).outbox, app.Current().outbox, claimed, batchSize, leaseMs, workerId, now)
      ensures !aborted && !claiming.Arrives? ==> r == Err(ClaimFailed(NoReply)) && deliveries == []
      ensures !aborted && claiming.Arrives? ==>
                Enabled(old(app.Current()).outbox, Claim(IdsOf(claimed), batchSize, leaseMs, workerId, now))
      ensures !aborted && claiming.Arrives? ==>
                Deliveries(app.Current(), |old(app.Current()).outbox.log|, handlers, workerId, claimed, fates, deliveries)
      ensures forall k :: 0 <= k < |deliveries| ==> Done(deliveries[k])
      ensures !aborted && claiming.Arrives? ==>
                r == if Failures(deliveries) == [] then Ok(|claimed|) else Err(Rejections(Failures(deliveries)))
      ensures r.Ok? && r.value > 0 ==> Settlements(app.Current().outbox.log) > Settlements(old(app.Current()).outbox.log)
      ensures r.Ok? && !aborted && batchSize > 0 && AllDue(old(app.Current()).outbox, now) && HasPending(old(app.Current()).outbox) ==>
                r.value > 0
      ensures !aborted && quiet && r.Ok? && batchSize > 0 && AllDue(old(app.Current()).outbox, now) ==>
                SettlingRound(old(app.Current()).outbox, app.Current().outbox)
    {
      deliveries, claimed := [], [];
      if aborted {
        MovedNowhere(quiet);
        return Ok(0), [], [];
      }
      ghost var before := app.Current();
      var batch;
      batch, claimed := ClaimBatch(now, claiming, fates, quiet);
      if batch.Err? {
        return Err(ClaimFailed(batch.error)), [], claimed;
      }
      ghost var afterClaim := app.Current();
      deliveries := DeliverAll(batch.value, |before.outbox.log|, fates, quiet);
      LeadsOn(before, afterClaim, app.Current(), quiet);
      var failures := Failures(deliveries);
      r := if failures == [] then Ok(|batch.value|) else Err(Rejections(failures));
      if r.Ok? && |claimed| > 0 {
        BatchSettles(before, app.Current(), claimed, fates, deliveries);
      }
      if quiet && r.Ok? && batchSize > 0 && AllDue(before.outbox, now) {
        QuietRound(before, app.Current());
      }
    }

    /** A round without rejections settles what it claimed. */
    lemma BatchSettles(f: Flow, f': Flow, messages: seq<ClaimedMessage>, fates: nat -> Fate, deliveries: seq<Phase>)
      requires f.outbox.log <= f'.outbox.log && |messages| > 0
      requires Deliveries(f', |f.outbox.log|, handlers, workerId, messages, fates, deliveries)
      requires forall k :: 0 <= k < |deliveries| ==> deliveries[k].Resolved?
      ensures Settlements(f'.outbox.log) > Settlements(f.outbox.log)
    {
      DeliveryOf(f', |f.outbox.log|, handlers, workerId, messages, fates, deliveries, |messages|, 0);
      var i := |f.outbox.log|;
      var completed := deliveries[0].handled && fates(0).completing.Arrives?;
      var j :| Settles(f'.outbox, i, j, messages[0], RetryDelay(messages[0].attemptCount, fates(0).random),
                        KnownError(handlers, messages[0], fates(0), deliveries[0].handled), completed);
      SettlementsMore(f.outbox.log, f'.outbox.log, j);
    }

    // ----- the polling loop -----

    /** Time passes until the next poll, and others do what they do. */
    method Wait(milliseconds: nat)
      requires Ready()
      modifies app, app.outbox
      ensures Moved(old(app.Current()), true)
      ensures app.Current().outbox.clock >= old(app.Current().outbox.clock) + milliseconds
    {
      ghost var f := app.Current();
      Stepped(f, Outbox(Tick(store.clock + milliseconds)), true);
      store.clock := store.clock + milliseconds;
      ghost var waited := app.Current();
      app.OtherSessions(true);
      LeadsOn(f, waited, app.Current(), true);
    }

    /** The maintenance of a poll: purges finalized messages and reads the statistics. */
    method Maintain(m: Maintenance) returns (ok: bool)
      requires Ready()
      modifies app, app.outbox
      ensures Moved(old(app.Current()), true) && (ok <==> m.purging.Arrives? && m.inspecting.Arrives?)
      ensures !m.purging.NeverSent? ==> exists victims :: Purges(old(app.Current().outbox), app.Current().outbox, victims,
                                                                  m.batch, m.processedBefore, m.deadLetteredBefore)
    {
      ok := PurgeOld(m);
      if ok {
        var stats := store.Inspect();
        ok := m.inspecting.Arrives?;
      }
    }

    method PurgeOld(m: Maintenance) returns (ok: bool)
      requires Ready()
      modifies app, app.outbox
      ensures Moved(old(app.Current()), true) && (ok <==> m.purging.Arrives?)
      ensures !m.purging.NeverSent? ==> exists victims :: Purges(old(app.Current().outbox), app.Current().outbox, victims,
                                                                  m.batch, m.processedBefore, m.deadLetteredBefore)
    {
      ghost var f := app.Current();
      MovedNowhere(true);
      assert Inv(store.Db()) by { ReachableFlowInv(f); }
      var purged;
      ghost var victims;
      purged, victims := store.PurgeFinalized(m.batch, m.deadLetteredBefore, m.processedBefore, m.purging);
      if !m.purging.NeverSent? {
        PurgeStepped(f, app.Current(), victims, m);
      }
      ok := purged.Ok?;
    }

    lemma PurgeStepped(f: Flow, f': Flow, victims: set<Id>, m: Maintenance)
      requires ReachableFlow(f) && f' == f.(outbox := f'.outbox)
      requires Purges(f.outbox, f'.outbox, victims, m.batch, m.processedBefore, m.deadLetteredBefore)
      ensures ReachableFlow(f') && FlowLater(f, f') && Leads(f, f', true)
    {
      Stepped(f, Outbox(Purge(victims, m.batch, m.processedBefore, m.deadLetteredBefore)), true);
    }

    /** One poll: the maintenance if it is due, and then a round, unless the maintenance throws. `start` is
        the state in which the round claims. */
    method PollOnce(plan: Plan) returns (r: Result<nat, RoundError>, ghost start: Flow)
      requires Ready() && batchSize > 0 && forall k :: 0.0 <= plan.fates(k).random < 1.0
      modifies app, app.outbox
      ensures Moved(old(app.Current()), true) && ReachableFlow(start)
      ensures Leads(old(app.Current()), start, true) && Leads(start, app.Current(), true)
      ensures start.outbox.clock >= old(app.Current().outbox.clock) + plan.wait
      ensures r.Ok? && r.value > 0 ==> Settlements(app.Current().outbox.log) > Settlements(start.outbox.log)
      ensures r.Ok? && r.value == 0 && AllDue(start.outbox, start.outbox.clock) ==> !HasPending(start.outbox)
    {
      ghost var f := app.Current();
      Wait(plan.wait);
      ghost var waited := app.Current();
      var ok := true;
      if plan.maintain.Some? {
        ok := Maintain(plan.maintain.value);
        LeadsOn(f, waited, app.Current(), true);
      }
      start := app.Current();
      if !ok {
        LeadsNowhere(start, true);
        return Err(MaintenanceFailed), start;
      }
      var deliveries;
      ghost var claimed;
      r, deliveries, claimed := RunOnce(store.clock, false, plan.claiming, plan.fates, true);
      LeadsOn(f, start, app.Current(), true);
    }

    /** The worker's polling loop while nothing new is appended or requeued, with any waits, any maintenance
        and any failures, its own and those of others. `results` are the rounds' results and `polled` the
        states they claimed in. Once as many rounds were clean, in that they settled something or found
        everything due, as the table's `Potential`, nothing is pending. */
    method Poll(rounds: nat, plans: nat -> Plan, ghost n: nat) returns (results: seq<Result<nat, RoundError>>, ghost polled: seq<Flow>)
      requires Ready() && batchSize > 0 && IdsBelow(app.Current().outbox, n)
      requires forall round, k :: 0.0 <= plans(round).fates(k).random < 1.0
      modifies app, app.outbox
      ensures Moved(old(app.Current()), true) && |results| == |polled| == rounds
      ensures Polled(old(app.Current()), polled, app.Current())
      ensures CleanOf(results, polled) >= old(Potential(app.Current().outbox, n)) ==> !HasPending(app.Current().outbox)
    {
      results, polled := [], [];
      ghost var first := app.Current();
      MovedNowhere(true);
      for round := 0 to rounds
        invariant Moved(first, true) && |results| == |polled| == round
        invariant Polled(first, polled, app.Current()) && Counted(first, app.Current(), results, polled, n)
      {
        ghost var before := app.Current();
        var r;
        ghost var start;
        r, start := PollOnce(plans(round));
        LeadsOn(first, before, app.Current(), true);
        PolledOn(first, polled, before, start, app.Current());
        PollCounts(first, before, start, app.Current(), results, polled, r, n);
        results, polled := results + [r], polled + [start];
      }
      CountedOut(first, app.Current(), results, polled, n);
    }
  }

  // ----- what a poll costs -----

  /** A clean round settled something, or found everything due. */
  predicate IsClean(r: Result<nat, RoundError>, start: Flow) {
    r.Ok? && (r.value > 0 || AllDue(start.outbox, start.outbox.clock))
  }

  function CleanOf(results: seq<Result<nat, RoundError>>, polled: seq<Flow>): nat
    requires |results| == |polled|
  {
    if results == [] then 0
    else
      var last := |results| - 1;
      CleanOf(results[..last], polled[..last]) + (if IsClean(results[last], polled[last]) then 1 else 0)
  }

  lemma CleanSnoc(results: seq<Result<nat, RoundError>>, polled: seq<Flow>, r: Result<nat, RoundError>, start: Flow)
    requires |results| == |polled|
    ensures CleanOf(results + [r], polled + [start]) == CleanOf(results, polled) + (if IsClean(r, start) then 1 else 0)
  {
    assert (results + [r])[..|results|] == results && (polled + [start])[..|polled|] == polled;
  }

  /** The polled states lie on one quiet run from the first state to the last, in order. */
  ghost predicate Polled(f: Flow, polled: seq<Flow>, f': Flow)
    decreases |polled|
  {
    if polled == [] then Leads(f, f', true)
    else
      var last := |polled| - 1;
      Leads(polled[last], f', true) && Polled(f, polled[..last], polled[last])
  }

  lemma PolledOn(f: Flow, polled: seq<Flow>, before: Flow, start: Flow, f': Flow)
    requires Polled(f, polled, before) && Leads(before, start, true) && Leads(start, f', true)
    ensures Polled(f, polled + [start], f')
  {
    PolledLater(f, polled, before, start);
    assert (polled + [start])[..|polled|] == polled;
  }

  lemma PolledLater(f: Flow, polled: seq<Flow>, before: Flow, later: Flow)
    requires Polled(f, polled, before) && Leads(before, later, true)
    ensures Polled(f, polled, later)
  {
    LeadsOn(if polled == [] then f else polled[|polled| - 1], before, later, true);
  }

  /** A poll never adds potential, and a clean one takes some, if there is any. */
  lemma PollPays(before: Flow, start: Flow, after: Flow, r: Result<nat, RoundError>, n: nat)
    requires ReachableFlow(before) && ReachableFlow(start) && IdsBelow(before.outbox, n)
    requires Leads(before, start, true) && Leads(start, after, true)
    requires r.Ok? && r.value > 0 ==> Settlements(after.outbox.log) > Settlements(start.outbox.log)
    requires r.Ok? && r.value == 0 && AllDue(start.outbox, start.outbox.clock) ==> !HasPending(start.outbox)
    ensures IdsBelow(after.outbox, n) && Potential(after.outbox, n) <= Potential(before.outbox, n)
    ensures IsClean(r, start) && Potential(before.outbox, n) > 0 ==> Potential(after.outbox, n) < Potential(before.outbox, n)
  {
    QuietPotential(before, start, n);
    QuietPotential(start, after, n);
    if !HasPending(start.outbox) { NoPendingNoPotential(start.outbox, n); }
  }

  /** Each clean round so far has taken from the potential, while there was any. */
  ghost predicate Counted(first: Flow, f: Flow, results: seq<Result<nat, RoundError>>, polled: seq<Flow>, n: nat)
    requires |results| == |polled|
  {
    IdsBelow(f.outbox, n) && Potential(f.outbox, n) <= Max0(Potential(first.outbox, n) - CleanOf(results, polled))
  }

  lemma PollCounts(first: Flow, before: Flow, start: Flow, after: Flow, results: seq<Result<nat, RoundError>>,
                   polled: seq<Flow>, r: Result<nat, RoundError>, n: nat)
    requires |results| == |polled| && Counted(first, before, results, polled, n)
    requires ReachableFlow(before) && ReachableFlow(start) && Leads(before, start, true) && Leads(start, after, true)
    requires r.Ok? && r.value > 0 ==> Settlements(after.outbox.log) > Settlements(start.outbox.log)
    requires r.Ok? && r.value == 0 && AllDue(start.outbox, start.outbox.clock) ==> !HasPending(start.outbox)
    ensures Counted(first, after, results + [r], polled + [start], n)
  {
    PollPays(before, start, after, r, n);
    CleanSnoc(results, polled, r, start);
  }

  lemma CountedOut(first: Flow, f: Flow, results: seq<Result<nat, RoundError>>, polled: seq<Flow>, n: nat)
    requires |results| == |polled| && Counted(first, f, results, polled, n)
    ensures CleanOf(results, polled) >= Potential(first.outbox, n) ==> !HasPending(f.outbox)
  {
    if CleanOf(results, polled) >= Potential(first.outbox, n) { NoPotentialNoPending(f.outbox, n); }
  }
}
