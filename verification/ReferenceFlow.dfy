/** The durable-probe flow from end to end: mutations that commit a probe with its created event,
    workers that deliver the event, and crashes anywhere, over the outbox machine. */
module ReferenceFlow {
  import opened Prelude
  import opened JsonText
  import OM = OutboxMachine
  import opened OutboxMachine
  import opened OutboxSafety

  const CREATED_EVENT := "reference-durable-probe.created.v1"

  /** A row of the product table. */
  datatype Probe = Probe(value: string, createdAt: int, deliveredAt: Option<int>)

  datatype Flow = Flow(
    outbox: OM.State,
    probes: map<Id, Probe>,
    sent: map<Id, Event>,             // every event ever appended, as appended
    confirmed: set<(Id, Token)>,      // claims whose handler has returned
    render: (Id, string, int) -> Json // how a probe is written as a payload, arbitrary
  )

  datatype FlowStep =
    | Create(id: Id, value: string, receivedAt: int, eventId: Id, now: int)
    | Handle(eventId: Id, token: Token, returned: bool)
    | Outbox(step: OM.Step)

  // ----- the mutation -----

  function CreatedEvent(f: Flow, id: Id, value: string, receivedAt: int, eventId: Id): Event {
    Event(eventId, CREATED_EVENT, id, 1, receivedAt, f.render(id, value, receivedAt))
  }

  predicate IsCreated(e: Event) { e.eventType == CREATED_EVENT }

  /** The primary key and the length check of the product table. */
  predicate InsertAccepted(f: Flow, id: Id, value: string) {
    id !in f.probes && 1 <= |value| <= 128
  }

  /** The probe and its event in one transaction, or nothing. */
  function CreateOne(f: Flow, id: Id, value: string, receivedAt: int, eventId: Id, now: int): Flow {
    if !InsertAccepted(f, id, value) then f
    else
      var e := CreatedEvent(f, id, value, receivedAt, eventId);
      f.(probes := f.probes[id := Probe(value, receivedAt, None)],
         outbox := SetRow(f.outbox, eventId, NewRow(e, now), Appended(eventId)),
         sent := f.sent[eventId := e])
  }

  // ----- the delivery -----

  function Coalesce(a: Option<int>, b: int): int {
    if a.Some? then a.value else b
  }

  /** The handler returns: the version is known, one row matches, and the row's check constraint holds. */
  predicate HandlerReturns(f: Flow, e: Event) {
    && IsCreated(e) && e.schemaVersion == 1 && e.aggregateId in f.probes
    && f.probes[e.aggregateId].createdAt <= Coalesce(f.probes[e.aggregateId].deliveredAt, f.outbox.clock)
  }

  function Delivered(p: Probe, now: int): Probe {
    p.(deliveredAt := Some(Coalesce(p.deliveredAt, now)))
  }

  /** The handler's statement; `returned` says that its reply arrived, so that the worker may complete. */
  function HandleOne(f: Flow, eventId: Id, token: Token, returned: bool): Flow
    requires eventId in f.sent
  {
    var e := f.sent[eventId];
    if HandlerReturns(f, e) then
      f.(probes := f.probes[e.aggregateId := Delivered(f.probes[e.aggregateId], f.outbox.clock)],
         confirmed := if returned then f.confirmed + {(eventId, token)} else f.confirmed)
    else f
  }

  // ----- the machine -----

  predicate AboutProbe(f: Flow, id: Id) {
    id in f.sent && IsCreated(f.sent[id])
  }

  ghost predicate HasClaim(log: seq<Entry>, id: Id, token: Token) {
    exists i :: 0 <= i < |log| && log[i].Claimed? && log[i].id == id && log[i].token == token
  }

  /** Workers complete a created event only after their handler returned, and created events come from
      mutations only. */
  ghost predicate EnabledFlow(f: Flow, step: FlowStep) {
    match step
    case Create(_, _, _, eventId, now) => now <= f.outbox.clock && FreshId(f.outbox, eventId)
    case Handle(eventId, token, _) => eventId in f.sent && HasClaim(f.outbox.log, eventId, token)
    case Outbox(step) =>
      && Enabled(f.outbox, step)
      && (step.Append? ==> !IsCreated(step.event))
      && (step.Complete? && AboutProbe(f, step.id) ==> (step.id, step.token) in f.confirmed)
  }

  ghost function ApplyFlow(f: Flow, step: FlowStep): Flow
    requires EnabledFlow(f, step)
  {
    match step
    case Create(id, value, receivedAt, eventId, now) => CreateOne(f, id, value, receivedAt, eventId, now)
    case Handle(eventId, token, returned) => HandleOne(f, eventId, token, returned)
    case Outbox(step) =>
      f.(outbox := Apply(f.outbox, step), sent := if step.Append? then f.sent[step.event.id := step.event] else f.sent)
  }

  ghost predicate RunFlow(f: Flow, steps: seq<FlowStep>, f': Flow)
    decreases |steps|
  {
    if steps == [] then f == f'
    else EnabledFlow(f, steps[0]) && RunFlow(ApplyFlow(f, steps[0]), steps[1..], f')
  }

  ghost predicate InitialFlow(f: Flow) {
    Initial(f.outbox) && f.probes == map[] && f.sent == map[] && f.confirmed == {}
  }

  // ----- the invariant -----

  /** The event is of the kind its handler knows, and says exactly this of the probe. */
  predicate CarriesProbe(f: Flow, e: Event, probe: Id, value: string, createdAt: int) {
    && e.eventType == "reference-durable-probe.created.v1" && e.schemaVersion == 1
    && e.aggregateId == probe && e.occurredAt == createdAt && e.payload == f.render(probe, value, createdAt)
  }

  /** The created event carries the probe as its row has it. */
  predicate Announces(f: Flow, e: Event) {
    && e.aggregateId in f.probes
    && var p := f.probes[e.aggregateId];
       CarriesProbe(f, e, e.aggregateId, p.value, p.createdAt) && 1 <= |p.value| <= 128
  }

  predicate IsDelivered(f: Flow, id: Id)
    requires id in f.sent
  {
    && IsCreated(f.sent[id]) && f.sent[id].aggregateId in f.probes
    && f.probes[f.sent[id].aggregateId].deliveredAt.Some?
  }

  function DeliveryTime(f: Flow, id: Id): int
    requires id in f.sent && IsDelivered(f, id)
  {
    f.probes[f.sent[id].aggregateId].deliveredAt.value
  }

  /** The message was claimed at this time or before. */
  ghost predicate ClaimedBy(log: seq<Entry>, id: Id, at: int) {
    exists i :: 0 <= i < |log| && log[i].Claimed? && log[i].id == id && log[i].at <= at
  }

  ghost predicate EventsMatch(f: Flow) {
    forall id :: id in f.sent ==> f.sent[id].id == id && (IsCreated(f.sent[id]) ==> Announces(f, f.sent[id]))
  }

  ghost predicate OneEventEach(f: Flow) {
    forall a, b :: AboutProbe(f, a) && AboutProbe(f, b) && f.sent[a].aggregateId == f.sent[b].aggregateId ==> a == b
  }

  ghost predicate HasEvent(f: Flow, p: Id) {
    exists id :: AboutProbe(f, id) && f.sent[id].aggregateId == p
  }

  ghost predicate ProbesHaveEvents(f: Flow) {
    forall p :: p in f.probes ==> HasEvent(f, p)
  }

  /** What was sent is what the outbox was given, and the rows still carry it. */
  ghost predicate SentIsAppended(f: Flow) {
    && (forall id :: id in f.sent <==> Appended(id) in f.outbox.log)
    && (forall id :: id in f.outbox.table ==> id in f.sent && f.outbox.table[id].event == f.sent[id])
  }

  ghost predicate ConfirmedDelivered(f: Flow) {
    forall id, token :: (id, token) in f.confirmed ==> id in f.sent && IsDelivered(f, id)
  }

  /** A processed created event has been delivered, whether its row is still there or has been purged. */
  ghost predicate CompletedDelivered(f: Flow) {
    && (forall i :: 0 <= i < |f.outbox.log| && f.outbox.log[i].Completed? && AboutProbe(f, f.outbox.log[i].id) ==>
          IsDelivered(f, f.outbox.log[i].id))
    && (forall id :: id in f.outbox.table && f.outbox.table[id].processedAt.Some? && AboutProbe(f, id) ==> IsDelivered(f, id))
  }

  predicate DeliveryOrder(f: Flow) {
    forall p :: p in f.probes && f.probes[p].deliveredAt.Some? ==>
      f.probes[p].createdAt <= f.probes[p].deliveredAt.value <= f.outbox.clock
  }

  ghost predicate DeliveredWasClaimed(f: Flow) {
    forall id :: id in f.sent && IsDelivered(f, id) ==> ClaimedBy(f.outbox.log, id, DeliveryTime(f, id))
  }

  ghost predicate FlowInv(f: Flow) {
    && Inv(f.outbox) && EventsMatch(f) && OneEventEach(f) && ProbesHaveEvents(f) && SentIsAppended(f)
    && ConfirmedDelivered(f) && CompletedDelivered(f) && DeliveryOrder(f) && DeliveredWasClaimed(f)
  }

  // ----- what outbox steps do, seen from here -----

  /** The log grows without appends, rows keep their events, and only `done` may become processed. */
  ghost predicate Extends(s: OM.State, s': OM.State, done: Option<Id>) {
    && s.log <= s'.log && s.clock <= s'.clock
    && (forall i :: |s.log| <= i < |s'.log| ==> !s'.log[i].Appended? && (s'.log[i].Completed? ==> done == Some(s'.log[i].id)))
    && (forall id :: id in s'.table ==> id in s.table && s'.table[id].event == s.table[id].event)
    && (forall id :: id in s'.table && s'.table[id].processedAt.Some? ==> s.table[id].processedAt.Some? || done == Some(id))
  }

  lemma {:induction false} ClaimExtends(s: OM.State, order: seq<Id>, leaseMs: int, worker: string, now: int)
    requires forall id :: id in order ==> id in s.table
    ensures Extends(s, ClaimAll(s, order, leaseMs, worker, now), None)
    decreases |order|
  {
    if order != [] { ClaimExtends(ClaimOne(s, order[0], leaseMs, worker, now), order[1..], leaseMs, worker, now); }
  }

  lemma {:induction false} PurgeExtends(s: OM.State, victims: set<Id>)
    ensures Extends(s, PurgeAll(s, victims), None)
    decreases victims
  {
    if victims != {} {
      var id :| id in victims && PurgeAll(s, victims) == PurgeAll(PurgeOne(s, id), victims - {id});
      PurgeExtends(PurgeOne(s, id), victims - {id});
    }
  }

  lemma StepExtends(s: OM.State, step: OM.Step)
    requires Enabled(s, step) && !step.Append?
    ensures Extends(s, Apply(s, step), if step.Complete? then Some(step.id) else None)
  {
    match step
    case Claim(order, limit, leaseMs, worker, now) =>
      ClaimOrderInTable(s, order, limit, now);
      ClaimExtends(s, order, leaseMs, worker, now);
    case Purge(victims, _, _, _) => PurgeExtends(s, victims);
    case _ =>
  }

  lemma DeliveredClaimsStay(f: Flow, log': seq<Entry>, id: Id)
    requires DeliveredWasClaimed(f) && f.outbox.log <= log' && id in f.sent && IsDelivered(f, id)
    ensures ClaimedBy(log', id, DeliveryTime(f, id))
  {
    ClaimedStays(f.outbox.log, log', id, DeliveryTime(f, id));
  }

  lemma ClaimedStays(log: seq<Entry>, log': seq<Entry>, id: Id, at: int)
    requires log <= log' && ClaimedBy(log, id, at)
    ensures ClaimedBy(log', id, at)
  {
    var i :| 0 <= i < |log| && log[i].Claimed? && log[i].id == id && log[i].at <= at;
    assert log'[i] == log[i];
  }

  // ----- every step keeps the invariant -----

  lemma OutboxKeepsSent(f: Flow, s': OM.State, done: Option<Id>)
    requires Extends(f.outbox, s', done) && SentIsAppended(f)
    ensures SentIsAppended(f.(outbox := s'))
  {
    forall id | Appended(id) in s'.log ensures Appended(id) in f.outbox.log {
      var i :| 0 <= i < |s'.log| && s'.log[i] == Appended(id);
      assert f.outbox.log[i] == Appended(id);
    }
    assert forall e :: e in f.outbox.log ==> e in s'.log;
  }

  lemma OutboxKeepsCompleted(f: Flow, s': OM.State, done: Option<Id>)
    requires Extends(f.outbox, s', done) && CompletedDelivered(f)
    requires done.Some? && AboutProbe(f, done.value) ==> IsDelivered(f, done.value)
    ensures CompletedDelivered(f.(outbox := s'))
  {
    var f' := f.(outbox := s');
    forall i | 0 <= i < |s'.log| && s'.log[i].Completed? && AboutProbe(f', s'.log[i].id) ensures IsDelivered(f', s'.log[i].id) {
      if i < |f.outbox.log| { assert f.outbox.log[i] == s'.log[i]; }
    }
  }

  lemma OutboxKeepsClaims(f: Flow, s': OM.State, done: Option<Id>)
    requires Extends(f.outbox, s', done) && DeliveredWasClaimed(f)
    ensures DeliveredWasClaimed(f.(outbox := s'))
  {
    forall id | id in f.sent && IsDelivered(f.(outbox := s'), id) ensures ClaimedBy(s'.log, id, DeliveryTime(f, id)) {
      assert IsDelivered(f, id);
      DeliveredClaimsStay(f, s'.log, id);
    }
  }

  lemma OutboxKeepsFlow(f: Flow, s': OM.State, done: Option<Id>)
    requires FlowInv(f) && Extends(f.outbox, s', done) && Inv(s')
    requires done.Some? && AboutProbe(f, done.value) ==> IsDelivered(f, done.value)
    ensures FlowInv(f.(outbox := s'))
  {
    OutboxKeepsSent(f, s', done);
    OutboxKeepsCompleted(f, s', done);
    OutboxKeepsClaims(f, s', done);
    OutboxKeepsEvents(f, s');
    OutboxKeepsDelivered(f, s');
  }

  lemma OutboxKeepsEvents(f: Flow, s': OM.State)
    requires EventsMatch(f) && OneEventEach(f) && ProbesHaveEvents(f)
    ensures EventsMatch(f.(outbox := s')) && OneEventEach(f.(outbox := s')) && ProbesHaveEvents(f.(outbox := s'))
  {
    var f' := f.(outbox := s');
    assert forall id :: AboutProbe(f', id) <==> AboutProbe(f, id);
    forall p | p in f'.probes ensures HasEvent(f', p) { assert HasEvent(f, p); }
    forall id | id in f'.sent && IsCreated(f'.sent[id]) ensures Announces(f', f'.sent[id]) { assert Announces(f, f.sent[id]); }
  }

  lemma OutboxKeepsDelivered(f: Flow, s': OM.State)
    requires ConfirmedDelivered(f) && DeliveryOrder(f) && f.outbox.clock <= s'.clock
    ensures ConfirmedDelivered(f.(outbox := s')) && DeliveryOrder(f.(outbox := s'))
  {
    forall id, token | (id, token) in f.confirmed ensures id in f.sent && IsDelivered(f.(outbox := s'), id) {
      assert IsDelivered(f, id);
    }
  }

  /** A new event appears, with its probe when it is a created event. */
  function Add(f: Flow, e: Event, now: int, probe: Option<Probe>): Flow {
    f.(probes := if probe.Some? then f.probes[e.aggregateId := probe.value] else f.probes,
       outbox := SetRow(f.outbox, e.id, NewRow(e, now), Appended(e.id)),
       sent := f.sent[e.id := e])
  }

  predicate Addable(f: Flow, e: Event, probe: Option<Probe>) {
    && (IsCreated(e) <==> probe.Some?)
    && match probe
       case None => true
       case Some(p) =>
         && e.aggregateId !in f.probes && p.deliveredAt.None? && 1 <= |p.value| <= 128
         && CarriesProbe(f, e, e.aggregateId, p.value, p.createdAt)
  }

  lemma FreshNotSent(f: Flow, id: Id)
    requires SentIsAppended(f) && FreshId(f.outbox, id)
    ensures id !in f.sent
  {
    assert forall i :: 0 <= i < |f.outbox.log| ==> f.outbox.log[i] != Appended(id);
  }

  lemma AddKeepsEvents(f: Flow, e: Event, now: int, probe: Option<Probe>)
    requires Addable(f, e, probe) && e.id !in f.sent && EventsMatch(f) && OneEventEach(f) && ProbesHaveEvents(f)
    ensures EventsMatch(Add(f, e, now, probe)) && OneEventEach(Add(f, e, now, probe))
  {
    var f' := Add(f, e, now, probe);
    forall id | id in f'.sent ensures f'.sent[id].id == id && (IsCreated(f'.sent[id]) ==> Announces(f', f'.sent[id])) {
      if id != e.id { assert f'.sent[id] == f.sent[id]; }
    }
    forall a, b | AboutProbe(f', a) && AboutProbe(f', b) && f'.sent[a].aggregateId == f'.sent[b].aggregateId ensures a == b {
      if a != e.id { assert Announces(f, f.sent[a]); }
      if b != e.id { assert Announces(f, f.sent[b]); }
    }
  }

  lemma AddKeepsProbes(f: Flow, e: Event, now: int, probe: Option<Probe>)
    requires Addable(f, e, probe) && e.id !in f.sent && ProbesHaveEvents(f)
    ensures ProbesHaveEvents(Add(f, e, now, probe))
  {
    var f' := Add(f, e, now, probe);
    forall p | p in f'.probes ensures HasEvent(f', p) {
      if p in f.probes {
        assert HasEvent(f, p);
        var id :| AboutProbe(f, id) && f.sent[id].aggregateId == p;
        assert AboutProbe(f', id) && f'.sent[id] == f.sent[id];
      } else {
        assert AboutProbe(f', e.id);
      }
    }
  }

  lemma AddKeepsSent(f: Flow, e: Event, now: int, probe: Option<Probe>)
    requires Addable(f, e, probe) && SentIsAppended(f)
    ensures SentIsAppended(Add(f, e, now, probe))
  {
    var log' := f.outbox.log + [Appended(e.id)];
    assert forall x :: x in log' <==> x in f.outbox.log || x == Appended(e.id);
  }

  /** Messages sent before are delivered as before. */
  ghost predicate SameDeliveries(f: Flow, f': Flow) {
    forall id :: id in f.sent ==>
      && id in f'.sent && (IsDelivered(f', id) <==> IsDelivered(f, id))
      && (IsDelivered(f, id) ==> DeliveryTime(f', id) == DeliveryTime(f, id))
  }

  lemma AddSameDeliveries(f: Flow, e: Event, now: int, probe: Option<Probe>)
    requires Addable(f, e, probe) && e.id !in f.sent && EventsMatch(f)
    ensures SameDeliveries(f, Add(f, e, now, probe)) && !IsDelivered(Add(f, e, now, probe), e.id)
  {
    var f' := Add(f, e, now, probe);
    forall id | id in f.sent
      ensures IsDelivered(f', id) <==> IsDelivered(f, id)
      ensures IsDelivered(f, id) ==> DeliveryTime(f', id) == DeliveryTime(f, id)
    {
      if IsCreated(f.sent[id]) { assert Announces(f, f.sent[id]); }
    }
  }

  lemma AddKeepsCompleted(f: Flow, e: Event, now: int, probe: Option<Probe>)
    requires CompletedDelivered(f) && SameDeliveries(f, Add(f, e, now, probe)) && FreshId(f.outbox, e.id)
    ensures CompletedDelivered(Add(f, e, now, probe))
  {
    var f' := Add(f, e, now, probe);
    forall i | 0 <= i < |f'.outbox.log| && f'.outbox.log[i].Completed? && AboutProbe(f', f'.outbox.log[i].id)
      ensures IsDelivered(f', f'.outbox.log[i].id)
    {
      assert f'.outbox.log[i] == f.outbox.log[i];
    }
  }

  lemma AddKeepsClaims(f: Flow, e: Event, now: int, probe: Option<Probe>)
    requires DeliveredWasClaimed(f) && SameDeliveries(f, Add(f, e, now, probe)) && !IsDelivered(Add(f, e, now, probe), e.id)
    ensures DeliveredWasClaimed(Add(f, e, now, probe))
  {
    var f' := Add(f, e, now, probe);
    forall id | id in f'.sent && IsDelivered(f', id) ensures ClaimedBy(f'.outbox.log, id, DeliveryTime(f', id)) {
      DeliveredClaimsStay(f, f'.outbox.log, id);
    }
  }

  lemma AddKeepsDelivered(f: Flow, e: Event, now: int, probe: Option<Probe>)
    requires ConfirmedDelivered(f) && DeliveryOrder(f) && SameDeliveries(f, Add(f, e, now, probe)) && Addable(f, e, probe)
    ensures ConfirmedDelivered(Add(f, e, now, probe)) && DeliveryOrder(Add(f, e, now, probe))
  {
  }

  lemma AddKeepsFlow(f: Flow, e: Event, now: int, probe: Option<Probe>)
    requires FlowInv(f) && Addable(f, e, probe) && FreshId(f.outbox, e.id) && Inv(Add(f, e, now, probe).outbox)
    ensures FlowInv(Add(f, e, now, probe))
  {
    FreshNotSent(f, e.id);
    AddKeepsEvents(f, e, now, probe);
    AddKeepsProbes(f, e, now, probe);
    AddKeepsSent(f, e, now, probe);
    AddSameDeliveries(f, e, now, probe);
    AddKeepsCompleted(f, e, now, probe);
    AddKeepsClaims(f, e, now, probe);
    AddKeepsDelivered(f, e, now, probe);
  }

  /** A handler's effect on the other predicates: nothing but a first delivery time. */
  lemma HandleKeepsEvents(f: Flow, eventId: Id, token: Token, returned: bool)
    requires eventId in f.sent && EventsMatch(f) && ProbesHaveEvents(f) && OneEventEach(f)
    ensures EventsMatch(HandleOne(f, eventId, token, returned)) && ProbesHaveEvents(HandleOne(f, eventId, token, returned))
    ensures OneEventEach(HandleOne(f, eventId, token, returned))
  {
    var f' := HandleOne(f, eventId, token, returned);
    forall id | id in f'.sent ensures f'.sent[id].id == id && (IsCreated(f'.sent[id]) ==> Announces(f', f'.sent[id])) {
      if IsCreated(f.sent[id]) { assert Announces(f, f.sent[id]); }
    }
    forall p | p in f'.probes ensures HasEvent(f', p) {
      assert HasEvent(f, p);
      var id :| AboutProbe(f, id) && f.sent[id].aggregateId == p;
      assert AboutProbe(f', id);
    }
    assert forall id :: AboutProbe(f', id) <==> AboutProbe(f, id);
  }

  lemma HandleDelivers(f: Flow, eventId: Id, token: Token, returned: bool)
    requires eventId in f.sent
    ensures var f' := HandleOne(f, eventId, token, returned);
            && (forall id :: id in f.sent && IsDelivered(f, id) ==> IsDelivered(f', id))
            && (HandlerReturns(f, f.sent[eventId]) ==> IsDelivered(f', eventId))
            && f'.sent == f.sent && f'.outbox == f.outbox
  {
  }

  lemma HandleKeepsDelivered(f: Flow, eventId: Id, token: Token, returned: bool)
    requires eventId in f.sent && ConfirmedDelivered(f) && CompletedDelivered(f) && DeliveryOrder(f)
    ensures ConfirmedDelivered(HandleOne(f, eventId, token, returned)) && CompletedDelivered(HandleOne(f, eventId, token, returned))
    ensures DeliveryOrder(HandleOne(f, eventId, token, returned))
  {
    HandleDelivers(f, eventId, token, returned);
  }

  lemma HandleKeepsClaims(f: Flow, eventId: Id, token: Token, returned: bool)
    requires eventId in f.sent && DeliveredWasClaimed(f) && HasClaim(f.outbox.log, eventId, token) && OneEventEach(f)
    requires TimesPast(f.outbox)
    ensures DeliveredWasClaimed(HandleOne(f, eventId, token, returned))
  {
    var f' := HandleOne(f, eventId, token, returned);
    forall id | id in f'.sent && IsDelivered(f', id) ensures ClaimedBy(f'.outbox.log, id, DeliveryTime(f', id)) {
      if IsDelivered(f, id) {
        assert DeliveryTime(f', id) == DeliveryTime(f, id);
      } else {
        assert AboutProbe(f, id) && AboutProbe(f, eventId);
        assert DeliveryTime(f', id) == f.outbox.clock;
      }
    }
  }

  lemma HandleKeepsFlow(f: Flow, eventId: Id, token: Token, returned: bool)
    requires FlowInv(f) && eventId in f.sent && HasClaim(f.outbox.log, eventId, token)
    ensures FlowInv(HandleOne(f, eventId, token, returned))
  {
    HandleDelivers(f, eventId, token, returned);
    HandleKeepsEvents(f, eventId, token, returned);
    HandleKeepsDelivered(f, eventId, token, returned);
    HandleKeepsClaims(f, eventId, token, returned);
  }

  lemma CreateKeepsFlow(f: Flow, id: Id, value: string, receivedAt: int, eventId: Id, now: int)
    requires FlowInv(f) && now <= f.outbox.clock && FreshId(f.outbox, eventId)
    ensures FlowInv(CreateOne(f, id, value, receivedAt, eventId, now))
  {
    if InsertAccepted(f, id, value) {
      var e, p := CreatedEvent(f, id, value, receivedAt, eventId), Probe(value, receivedAt, None);
      AppendKeeps(f.outbox, e, now);
      AddKeepsFlow(f, e, now, Some(p));
      assert CreateOne(f, id, value, receivedAt, eventId, now) == Add(f, e, now, Some(p));
    }
  }

  lemma OutboxStepKeepsFlow(f: Flow, step: OM.Step)
    requires FlowInv(f) && EnabledFlow(f, Outbox(step))
    ensures FlowInv(ApplyFlow(f, Outbox(step)))
  {
    StepKeeps(f.outbox, step);
    if step.Append? {
      AddKeepsFlow(f, step.event, step.now, None);
    } else {
      StepExtends(f.outbox, step);
      OutboxKeepsFlow(f, Apply(f.outbox, step), if step.Complete? then Some(step.id) else None);
    }
  }

  lemma FlowStepKeeps(f: Flow, step: FlowStep)
    requires FlowInv(f) && EnabledFlow(f, step)
    ensures FlowInv(ApplyFlow(f, step))
  {
    match step
    case Create(id, value, receivedAt, eventId, now) => CreateKeepsFlow(f, id, value, receivedAt, eventId, now);
    case Handle(eventId, token, returned) => HandleKeepsFlow(f, eventId, token, returned);
    case Outbox(s) => OutboxStepKeepsFlow(f, s);
  }

  lemma {:induction false} FlowRunKeeps(f: Flow, steps: seq<FlowStep>, f': Flow)
    requires FlowInv(f) && RunFlow(f, steps, f')
    ensures FlowInv(f')
    decreases |steps|
  {
    if steps != [] {
      FlowStepKeeps(f, steps[0]);
      FlowRunKeeps(ApplyFlow(f, steps[0]), steps[1..], f');
    }
  }

  // ----- the end-to-end guarantees -----

  ghost predicate ReachableFlow(f: Flow) {
    exists f0, steps :: InitialFlow(f0) && RunFlow(f0, steps, f)
  }

  lemma ReachableFlowInv(f: Flow)
    requires ReachableFlow(f)
    ensures FlowInv(f)
  {
    var f0, steps :| InitialFlow(f0) && RunFlow(f0, steps, f);
    FlowRunKeeps(f0, steps, f);
  }

  /** Committed probes and appended created events correspond one to one. */
  lemma ProbesMatchEvents(f: Flow)
    requires ReachableFlow(f)
    ensures forall p :: p in f.probes ==> HasEvent(f, p)
    ensures forall id :: AboutProbe(f, id) ==> Appended(id) in f.outbox.log && Announces(f, f.sent[id])
    ensures forall a, b :: AboutProbe(f, a) && AboutProbe(f, b) && f.sent[a].aggregateId == f.sent[b].aggregateId ==> a == b
  {
    ReachableFlowInv(f);
  }

  /** A processed created event means a delivered probe, even after its row has been purged. */
  lemma ProcessedMeansDelivered(f: Flow, i: nat)
    requires ReachableFlow(f) && i < |f.outbox.log| && f.outbox.log[i].Completed? && AboutProbe(f, f.outbox.log[i].id)
    ensures IsDelivered(f, f.outbox.log[i].id)
  {
    ReachableFlowInv(f);
  }

  /** An undelivered probe is not forgotten: its event is pending, dead-lettered, or was purged without
      ever having been processed. */
  lemma UndeliveredIsAccounted(f: Flow, p: Id) returns (id: Id)
    requires ReachableFlow(f) && p in f.probes && f.probes[p].deliveredAt.None?
    ensures AboutProbe(f, id) && f.sent[id].aggregateId == p
    ensures id in f.outbox.table ==> f.outbox.table[id].processedAt.None?
    ensures id in f.outbox.table || Purged(id) in f.outbox.log
    ensures forall i :: 0 <= i < |f.outbox.log| && f.outbox.log[i].id == id ==> !f.outbox.log[i].Completed?
  {
    ReachableFlowInv(f);
    assert HasEvent(f, p);
    id :| AboutProbe(f, id) && f.sent[id].aggregateId == p;
    assert Appended(id) in f.outbox.log;
  }

  /** A delivered probe was claimed for delivery, by the time it was delivered, and not delivered before it was
      created. */
  lemma DeliveredAfterClaim(f: Flow, id: Id)
    requires ReachableFlow(f) && id in f.sent && IsDelivered(f, id)
    ensures ClaimedBy(f.outbox.log, id, DeliveryTime(f, id))
    ensures var p := f.probes[f.sent[id].aggregateId]; p.createdAt <= p.deliveredAt.value <= f.outbox.clock
  {
    ReachableFlowInv(f);
  }

  /** From one state to a later one a probe keeps its contents and, once it has one, its delivery time. */
  predicate ProbesStay(f: Flow, f': Flow) {
    forall p :: p in f.probes ==>
      && p in f'.probes
      && f'.probes[p].(deliveredAt := None) == f.probes[p].(deliveredAt := None)
      && (f.probes[p].deliveredAt.Some? ==> f'.probes[p] == f.probes[p])
  }

  /** Redelivery, however often, never changes the first delivery time. */
  lemma {:induction false} FirstDeliveryStays(f: Flow, steps: seq<FlowStep>, f': Flow)
    requires RunFlow(f, steps, f')
    ensures ProbesStay(f, f')
    decreases |steps|
  {
    if steps != [] {
      FirstDeliveryStays(ApplyFlow(f, steps[0]), steps[1..], f');
    }
  }
}
