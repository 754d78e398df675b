/** The durable-probe mutation from begin to commit, statement by statement over the whole database, with
    other sessions free to act between any two statements. */
module ReferenceMutation {
  import opened Prelude
  import opened JsonText
  import JsonGraph
  import JsonWalkers
  import L = LedgerMachine
  import LS = LedgerSafety
  import LR = LedgerRefinement
  import Sessions = IdempotencyStore
  import O = OutboxMachine
  import opened ReferenceFlow
  import opened ReferenceApi

  // ----- histories of the database -----

  /** Some run leads from one state to the other. */
  ghost predicate Leads(a: Api, a': Api) {
    exists steps :: RunApi(a, steps, a')
  }

  lemma LeadsNowhere(a: Api)
    ensures Leads(a, a)
  {
    assert RunApi(a, [], a);
  }

  lemma LeadsStep(a: Api, step: ApiStep)
    requires EnabledApi(a, step)
    ensures Leads(a, ApplyApi(a, step))
  {
    assert RunApi(ApplyApi(a, step), [step][1..], ApplyApi(a, step));
    assert RunApi(a, [step], ApplyApi(a, step));
  }

  lemma {:induction false} RunAppend(a: Api, s: seq<ApiStep>, a1: Api, t: seq<ApiStep>, a2: Api)
    requires RunApi(a, s, a1) && RunApi(a1, t, a2)
    ensures RunApi(a, s + t, a2)
    decreases |s|
  {
    if s == [] {
      assert s + t == t;
    } else {
      assert (s + t)[1..] == s[1..] + t;
      RunAppend(ApplyApi(a, s[0]), s[1..], a1, t, a2);
    }
  }

  lemma LeadsOn(a: Api, a1: Api, a2: Api)
    requires Leads(a, a1) && Leads(a1, a2)
    ensures Leads(a, a2)
  {
    var s :| RunApi(a, s, a1);
    var t :| RunApi(a1, t, a2);
    RunAppend(a, s, a1, t, a2);
  }

  lemma LeadsReachable(a: Api, a': Api)
    requires ReachableApi(a) && Leads(a, a')
    ensures ReachableApi(a') && a.ledger.history <= a'.ledger.history
  {
    var a0, s :| InitialApi(a0) && RunApi(a0, s, a);
    var t :| RunApi(a, t, a');
    RunAppend(a0, s, a, t, a');
    var es := SimulatesApi(a, t, a');
  }

  // ----- one transaction among others -----

  /** An identifier nobody uses and no other transaction holds. */
  ghost predicate FreshFor(a: Api, me: nat, event: nat) {
    O.FreshId(a.flow.outbox, event) && EventFree(a.ledger, me, event)
  }

  /** Transaction `me` is live, with this state of its own, and its random identifier is nobody else's. */
  ghost predicate Mine(a: Api, me: nat, t: L.Txn, event: nat) {
    me in a.ledger.live && a.ledger.live[me] == t && FreshFor(a, me, event)
  }

  /** Since `a` the database has moved along a run, and payloads are written as they were. */
  ghost predicate Moved(a: Api, a': Api) {
    ReachableApi(a') && Leads(a, a') && a'.flow.render == a.flow.render
  }

  lemma MovedOn(a: Api, a1: Api, a2: Api)
    requires Moved(a, a1) && Moved(a1, a2)
    ensures Moved(a, a2)
  {
    LeadsOn(a, a1, a2);
  }

  /** A statement of transaction `me` leaves other transactions' writes, and the tables, as they are. */
  lemma OwnStatement(a: Api, step: L.Step, me: nat, event: nat)
    requires ReachableApi(a) && EnabledApi(a, Call(step)) && !step.Commit?
    requires step.HandlerWrite? ==> step.id == me
    requires me in L.Apply(a.ledger, step).live && FreshFor(a, me, event)
    ensures var a' := ApplyApi(a, Call(step)); Moved(a, a') && Mine(a', me, L.Apply(a.ledger, step).live[me], event)
  {
    var s, s' := a.ledger, L.Apply(a.ledger, step);
    LeadsStep(a, Call(step));
    LeadsReachable(a, ApplyApi(a, Call(step)));
    NextIsNewIn(a);
    forall id | id in s'.live && id != me && HoldsEvent(WritesOf(s'.live[id].phase))
      ensures WritesOf(s'.live[id].phase)[1].event.id != event
    {
      OthersWrites(s, step, me, id);
    }
  }

  lemma NextIsNewIn(a: Api)
    requires ReachableApi(a)
    ensures a.ledger.nextId !in a.ledger.live
  {
    ReachableApiSound(a);
    NextIsNew(a.ledger);
  }

  lemma OthersWrites(s: L.State, step: L.Step, me: nat, id: nat)
    requires L.Enabled(s, step) && s.nextId !in s.live && id in L.Apply(s, step).live && id != me
    requires step.HandlerWrite? ==> step.id == me
    ensures WritesOf(L.Apply(s, step).live[id].phase) == (if id in s.live then WritesOf(s.live[id].phase) else [])
  {
    if step.HandlerWrite? {
      OneWrite(s, step.id, step.write, id);
      assert WritesOf(s.live[id].phase) + [] == WritesOf(s.live[id].phase);
    } else {
      WritesStay(s, step, id);
    }
  }

  /** A probe to create: its row, and its event under a random identifier. */
  datatype Draft = Draft(probe: nat, value: string, receivedAt: int, eventId: nat)

  /** What a mutation meets: how long it waits for another transaction's row, whether its two writes reach the
      database, and how its commit ends. */
  datatype Fate = Fate(patience: nat, inserting: bool, appending: bool, commit: Sessions.CommitFate)

  function InsertOf(d: Draft): L.Write {
    L.InsertProbe(d.probe, d.value, d.receivedAt)
  }

  function AppendOf(f: Flow, d: Draft): L.Write {
    L.AppendEvent(CreatedEvent(f, d.probe, d.value, d.receivedAt, d.eventId))
  }

  /** The event is the draft's, and carries its probe. */
  predicate Drafted(f: Flow, e: O.Event, d: Draft) {
    e.id == d.eventId && CarriesProbe(f, e, d.probe, d.value, d.receivedAt)
  }

  /** Both of the handler's writes go through in this state. */
  predicate Creatable(a: Api, id: nat, d: Draft, how: Fate) {
    how.inserting && how.appending && InsertAccepted(a.flow, d.probe, d.value) && ProbeFree(a.ledger, id, d.probe)
  }

  /** Between the two states, on one run, the transaction has waited for a ledger row. */
  ghost predicate Waited(a: Api, a': Api, id: nat) {
    exists w :: Moved(a, w) && Moved(w, a') && Sessions.WaitsForRow(w.ledger, id)
  }

  /** Between the two states there was one in which one of the handler's writes was refused. */
  ghost predicate Refused(a: Api, a': Api, id: nat, d: Draft, how: Fate) {
    exists w :: Moved(a, w) && Moved(w, a') && !Creatable(w, id, d, how)
  }

  lemma WaitedEarlier(a: Api, a1: Api, a2: Api, id: nat)
    requires Moved(a, a1) && Waited(a1, a2, id)
    ensures Waited(a, a2, id)
  {
    var w :| Moved(a1, w) && Moved(w, a2) && Sessions.WaitsForRow(w.ledger, id);
    MovedOn(a, a1, w);
  }

  lemma RefusedEarlier(a: Api, a1: Api, a2: Api, id: nat, d: Draft, how: Fate)
    requires Moved(a, a1) && Refused(a1, a2, id, d, how)
    ensures Refused(a, a2, id, d, how)
  {
    var w :| Moved(a1, w) && Moved(w, a2) && !Creatable(w, id, d, how);
    MovedOn(a, a1, w);
  }

  class CreateReferenceDurableProbe {
    var ledger: L.State
    var flow: Flow

    constructor (ledger: L.State, flow: Flow)
      requires InitialApi(Api(ledger, flow))
      ensures Current() == Api(ledger, flow) && ReachableApi(Current())
    {
      this.ledger, this.flow := ledger, flow;
      assert RunApi(Api(ledger, flow), [], Api(ledger, flow));
    }

    function Current(): Api
      reads this
    {
      Api(ledger, flow)
    }

    /** Any number of steps of other sessions; callers know nothing more than this contract: nobody touches
        transaction `me`, draws its random identifier, or changes how payloads are written. */
    method OtherSessions(me: nat, ghost event: nat)
      requires ReachableApi(Current()) && me in ledger.live
      modifies this
      ensures Moved(old(Current()), Current()) && me in ledger.live && ledger.live[me] == old(ledger).live[me]
      ensures old(FreshFor(Current(), me, event)) ==> FreshFor(Current(), me, event)
    {
      LeadsNowhere(Current());
    }

    /** One statement of transaction `me`, and then whatever others do. */
    method Act(step: L.Step, me: nat, ghost event: nat)
      requires ReachableApi(Current()) && EnabledApi(Current(), Call(step)) && !step.Commit?
      requires step.HandlerWrite? ==> step.id == me
      requires me in L.Apply(ledger, step).live && FreshFor(Current(), me, event)
      modifies this
      ensures Moved(old(Current()), Current()) && Mine(Current(), me, L.Apply(old(ledger), step).live[me], event)
    {
      OwnStatement(Current(), step, me, event);
      ledger := L.Apply(ledger, step);
      ghost var acted := Current();
      OtherSessions(me, event);
      MovedOn(old(Current()), acted, Current());
    }

    method Rollback(id: nat)
      requires ReachableApi(Current()) && id in ledger.live
      modifies this
      ensures Moved(old(Current()), Current()) && id !in ledger.live && Sessions.Absent(ledger.history, id)
    {
      LeadsStep(Current(), Call(L.Abort(id)));
      LeadsReachable(Current(), ApplyApi(Current(), Call(L.Abort(id))));
      IdIsNew(Current(), id);
      ledger := L.Apply(ledger, L.Abort(id));
    }

    /** A live transaction has no entry in the history. */
    lemma IdIsNew(a: Api, id: nat)
      requires ReachableApi(a) && id in a.ledger.live
      ensures Sessions.Absent(a.ledger.history, id)
    {
      assert L.IdsFresh(a.ledger) by {
        ReachableApiSound(a);
        LR.ReachableInv(a.ledger);
      }
    }

    // ----- before the handler -----

    method Begin(key: L.Key, hash: string, ttl: int, ghost event: nat) returns (id: nat)
      requires ReachableApi(Current()) && O.FreshId(flow.outbox, event) && EventUnheld(ledger, event)
      modifies this
      ensures Moved(old(Current()), Current()) && Mine(Current(), id, L.Txn(key, hash, ttl, old(ledger).clock, L.Begun, {}, old(ledger).clock), event)
    {
      id := ledger.nextId;
      Act(L.Begin(key, hash, ttl), id, event);
    }

    /** Where the call stands: still the same call of the same transaction, its identifier still free. */
    ghost predicate Goes(id: nat, t: L.Txn, event: nat)
      reads this
    {
      && ReachableApi(Current()) && id in ledger.live && FreshFor(Current(), id, event)
      && Sessions.IsCall(ledger, id, t.key, t.hash, t.ttl, t.start)
    }

    /** A ledger statement that meets another transaction's row waits for it, for as long as `patience` says. */
    method AwaitRow(id: nat, ghost event: nat, patience: nat)
      requires ReachableApi(Current()) && id in ledger.live && FreshFor(Current(), id, event)
      modifies this
      ensures Moved(old(Current()), Current()) && Mine(Current(), id, old(ledger).live[id], event)
      ensures !Sessions.WaitsForRow(old(ledger), id) ==> Current() == old(Current())
    {
      LeadsNowhere(Current());
      var waited := 0;
      while waited < patience && Sessions.WaitsForRow(ledger, id)
        invariant Moved(old(Current()), Current()) && Mine(Current(), id, old(ledger).live[id], event)
        invariant !Sessions.WaitsForRow(old(ledger), id) ==> Current() == old(Current())
      {
        ghost var before := Current();
        OtherSessions(id, event);
        MovedOn(old(Current()), before, Current());
        waited := waited + 1;
      }
    }

    /** A wait that is cut short ends the call. */
    method GiveUp(id: nat, ghost first: Api)
      requires Moved(first, Current()) && Sessions.WaitsForRow(ledger, id)
      modifies this
      ensures Moved(old(Current()), Current()) && Waited(first, Current(), id)
      ensures id !in ledger.live && Sessions.Absent(ledger.history, id)
    {
      Rollback(id);
    }

    /** From the try-lock to the lookup, as `runAtomically` does it; false only when the call waited for a row
        in vain and was rolled back. */
    method Decide(id: nat, ghost event: nat, patience: nat) returns (ok: bool)
      requires ReachableApi(Current()) && L.InPhase(ledger, id, L.Begun) && FreshFor(Current(), id, event)
      modifies this
      ensures Moved(old(Current()), Current())
      ensures ok ==> Goes(id, old(ledger).live[id], event) && (ledger.live[id].phase == L.Running([]) || ledger.live[id].phase.Decided?)
      ensures !ok ==> id !in ledger.live && Sessions.Absent(ledger.history, id) && Waited(old(Current()), Current(), id)
    {
      ghost var first := Current();
      TakeLock(id, event);
      if ledger.live[id].phase.Decided? {
        return true;
      }
      ghost var locked := Current();
      ok := DeleteExpired(id, event, patience);
      MovedOn(first, locked, Current());
      if !ok {
        WaitedEarlier(first, locked, Current(), id);
        return;
      }
      ok := SweepAndLook(id, event, patience, first);
    }

    method SweepAndLook(id: nat, ghost event: nat, patience: nat, ghost first: Api) returns (ok: bool)
      requires Moved(first, Current()) && L.InPhase(ledger, id, L.Cleared) && FreshFor(Current(), id, event)
      modifies this
      ensures Moved(first, Current())
      ensures ok ==> Goes(id, old(ledger).live[id], event) && (ledger.live[id].phase == L.Running([]) || ledger.live[id].phase.Decided?)
      ensures !ok ==> id !in ledger.live && Sessions.Absent(ledger.history, id) && Waited(first, Current(), id)
    {
      ghost var cleared := Current();
      SweepExpired(id, event);
      MovedOn(first, cleared, Current());
      ghost var swept := Current();
      ok := Look(id, event, patience);
      MovedOn(first, swept, Current());
      if !ok { WaitedEarlier(first, swept, Current(), id); }
    }

    method TakeLock(id: nat, ghost event: nat)
      requires ReachableApi(Current()) && L.InPhase(ledger, id, L.Begun) && FreshFor(Current(), id, event)
      modifies this
      ensures Moved(old(Current()), Current()) && Goes(id, old(ledger).live[id], event)
      ensures ledger.live[id].phase ==
              if L.LockId(old(ledger), old(ledger).live[id].key) in old(ledger).locks then L.Decided(L.InProgress) else L.Locked
    {
      Act(L.TryLock(id), id, event);
    }

    method DeleteExpired(id: nat, ghost event: nat, patience: nat) returns (ok: bool)
      requires ReachableApi(Current()) && L.InPhase(ledger, id, L.Locked) && FreshFor(Current(), id, event)
      modifies this
      ensures Moved(old(Current()), Current())
      ensures ok ==> Goes(id, old(ledger).live[id], event) && ledger.live[id].phase == L.Cleared
      ensures !ok ==> id !in ledger.live && Sessions.Absent(ledger.history, id) && Waited(old(Current()), Current(), id)
    {
      ghost var first := Current();
      AwaitRow(id, event, patience);
      ghost var awaited := Current();
      ok := !Sessions.WaitsForRow(ledger, id);
      if ok {
        Act(L.DeleteOwn(id), id, event);
      } else {
        GiveUp(id, first);
      }
      MovedOn(first, awaited, Current());
    }

    method SweepExpired(id: nat, ghost event: nat)
      requires ReachableApi(Current()) && L.InPhase(ledger, id, L.Cleared) && FreshFor(Current(), id, event)
      modifies this
      ensures Moved(old(Current()), Current()) && Goes(id, old(ledger).live[id], event) && ledger.live[id].phase == L.Swept
    {
      var victims := FirstBatch(L.SweepRows(ledger, ledger.live[id]), L.SWEEP_LIMIT);
      Act(L.Sweep(id, victims), id, event);
    }

    method Look(id: nat, ghost event: nat, patience: nat) returns (ok: bool)
      requires ReachableApi(Current()) && L.InPhase(ledger, id, L.Swept) && FreshFor(Current(), id, event)
      modifies this
      ensures Moved(old(Current()), Current())
      ensures ok ==> Goes(id, old(ledger).live[id], event) && (ledger.live[id].phase == L.Running([]) || ledger.live[id].phase.Decided?)
      ensures !ok ==> id !in ledger.live && Sessions.Absent(ledger.history, id) && Waited(old(Current()), Current(), id)
    {
      ghost var first := Current();
      AwaitRow(id, event, patience);
      ghost var awaited := Current();
      ok := !Sessions.WaitsForRow(ledger, id);
      if ok {
        Act(L.Lookup(id), id, event);
      } else {
        GiveUp(id, first);
      }
      MovedOn(first, awaited, Current());
    }

    // ----- the handler -----

    /** The repository's `INSERT`. While another transaction holds a row with this key it waits, for as long
        as `patience` says, and goes on when that transaction has ended; a constraint, a wait that is cut short
        or a lost connection rolls the call back. `tried` is the state in which the statement ended. */
    method Insert(id: nat, d: Draft, patience: nat, connected: bool) returns (ok: bool, ghost tried: Api)
      requires ReachableApi(Current()) && L.InPhase(ledger, id, L.Running([])) && FreshFor(Current(), id, d.eventId)
      modifies this
      ensures Moved(old(Current()), Current()) && Moved(old(Current()), tried) && Moved(tried, Current())
      ensures ok <==> connected && InsertAccepted(tried.flow, d.probe, d.value) && ProbeFree(tried.ledger, id, d.probe)
      ensures ProbeFree(old(ledger), id, d.probe) ==> tried == old(Current())
      ensures ok ==> Goes(id, old(ledger).live[id], d.eventId) && ledger.live[id].phase == L.Running([InsertOf(d)])
      ensures !ok ==> id !in ledger.live && Sessions.Absent(ledger.history, id)
    {
      ghost var first := Current();
      Await(id, d, patience);
      tried := Current();
      LeadsNowhere(tried);
      ok := connected && d.probe !in flow.probes && 1 <= |d.value| <= 128 && ProbeFree(ledger, id, d.probe);
      if ok {
        Act(L.HandlerWrite(id, InsertOf(d)), id, d.eventId);
        assert [] + [InsertOf(d)] == [InsertOf(d)];
      } else {
        Rollback(id);
      }
      MovedOn(first, tried, Current());
    }

    method Await(id: nat, d: Draft, patience: nat)
      requires ReachableApi(Current()) && id in ledger.live && FreshFor(Current(), id, d.eventId)
      modifies this
      ensures Moved(old(Current()), Current()) && Mine(Current(), id, old(ledger).live[id], d.eventId)
      ensures ProbeFree(old(ledger), id, d.probe) ==> Current() == old(Current())
    {
      LeadsNowhere(Current());
      var waited := 0;
      while waited < patience && !ProbeFree(ledger, id, d.probe)
        invariant Moved(old(Current()), Current()) && Mine(Current(), id, old(ledger).live[id], d.eventId)
        invariant ProbeFree(old(ledger), id, d.probe) ==> Current() == old(Current())
      {
        ghost var before := Current();
        OtherSessions(id, d.eventId);
        MovedOn(old(Current()), before, Current());
        waited := waited + 1;
      }
    }

    /** The outbox's `INSERT` of the probe's event, whose payload is the probe object as it sits in memory. */
    method Append(id: nat, d: Draft, heap: JsonGraph.Heap, payload: JsonGraph.Slot)
      requires ReachableApi(Current()) && FreshFor(Current(), id, d.eventId) && L.InPhase(ledger, id, L.Running([InsertOf(d)]))
      requires JsonGraph.ValidHeap(heap) && JsonGraph.SlotIn(heap, payload)
      requires JsonGraph.Unfolds(heap, payload, flow.render(d.probe, d.value, d.receivedAt))
      modifies this
      ensures Moved(old(Current()), Current()) && Goes(id, old(ledger).live[id], d.eventId)
      ensures ledger.live[id].phase == L.Running([InsertOf(d), AppendOf(flow, d)])
      ensures var e := AppendOf(flow, d).event; Drafted(flow, e, d) && JsonGraph.Unfolds(heap, payload, e.payload)
    {
      var durable := JsonWalkers.AssertDurableJsonValue(heap, payload);
      assert durable;
      var event := AppendOf(flow, d);
      Act(L.HandlerWrite(id, event), id, d.eventId);
      assert [InsertOf(d)] + [event] == [InsertOf(d), event];
    }

    /** The handler: the probe, then its event, in the caller's transaction. Whatever other sessions do in
        between, either both writes are in the transaction, for its commit to publish together, or the
        transaction is gone. */
    method CreateProbe(id: nat, d: Draft, how: Fate, heap: JsonGraph.Heap, payload: JsonGraph.Slot)
      returns (ok: bool, ghost tried: Api)
      requires ReachableApi(Current()) && L.InPhase(ledger, id, L.Running([])) && FreshFor(Current(), id, d.eventId)
      requires JsonGraph.ValidHeap(heap) && JsonGraph.SlotIn(heap, payload)
      requires JsonGraph.Unfolds(heap, payload, flow.render(d.probe, d.value, d.receivedAt))
      modifies this
      ensures Moved(old(Current()), Current()) && Moved(old(Current()), tried) && Moved(tried, Current())
      ensures ok <==> Creatable(tried, id, d, how)
      ensures ProbeFree(old(ledger), id, d.probe) ==> tried == old(Current())
      ensures ok ==> Goes(id, old(ledger).live[id], d.eventId) && ledger.live[id].phase == L.Running([InsertOf(d), AppendOf(flow, d)])
      ensures ok ==> var e := AppendOf(flow, d).event; Drafted(flow, e, d) && JsonGraph.Unfolds(heap, payload, e.payload)
      ensures !ok ==> id !in ledger.live && Sessions.Absent(ledger.history, id)
    {
      ghost var first := Current();
      ok, tried := Insert(id, d, how.patience, how.inserting);
      if !ok {
        return;
      }
      ghost var inserted := Current();
      if how.appending {
        Append(id, d, heap, payload);
      } else {
        Rollback(id);
        ok := false;
      }
      MovedOn(first, inserted, Current());
      MovedOn(tried, inserted, Current());
    }

    // ----- after the handler -----

    /** Stores the handler's validated result; refused where a table check fails. */
    method Store(id: nat, d: Draft, body: Json) returns (ok: bool)
      requires ReachableApi(Current()) && FreshFor(Current(), id, d.eventId)
      requires L.InPhase(ledger, id, L.Running([InsertOf(d), AppendOf(flow, d)]))
      modifies this
      ensures Moved(old(Current()), Current()) && (ok <==> L.ChecksPass(old(ledger).live[id], 200))
      ensures ok ==> Goes(id, old(ledger).live[id], d.eventId) && IsStored(ledger.live[id].phase, [InsertOf(d), AppendOf(flow, d)], body)
      ensures !ok ==> id !in ledger.live && Sessions.Absent(ledger.history, id)
    {
      ok := L.ChecksPass(ledger.live[id], 200);
      if ok {
        CanStore(Current(), id, d, body);
        Act(L.Insert(id, 200, body), id, d.eventId);
      } else {
        Rollback(id);
      }
    }

    /** A handler that has written both may store its result: this is where completeness comes from. */
    lemma CanStore(a: Api, id: nat, d: Draft, body: Json)
      requires ReachableApi(a) && L.InPhase(a.ledger, id, L.Running([InsertOf(d), AppendOf(a.flow, d)]))
      requires L.ChecksPass(a.ledger.live[id], 200)
      ensures EnabledApi(a, Call(L.Insert(id, 200, body)))
    {
      assert L.TxnSound(a.ledger, id) by {
        ReachableApiSound(a);
        LR.ReachableInv(a.ledger);
      }
    }

    /** `COMMIT`: publishes the ledger record, the probe and the event together, or nothing. */
    method Conclude(id: nat, fate: Sessions.CommitFate) returns (r: Result<L.Outcome, Sessions.StoreError>)
      requires ReachableApi(Current()) && LS.CanCommit(ledger, id)
      modifies this
      ensures Moved(old(Current()), Current())
      ensures r.Ok? <==> fate.Done?
      ensures r.Err? ==> r.error == Sessions.CommitFailed
      ensures r.Ok? ==> var f := L.FinishedCall(old(ledger), id, true);
                        r.value == f.outcome && Sessions.EffectOf(ledger.history, id, f.writes)
                        && Sessions.Recorded(ledger.history, |old(ledger).history|, id, f.key, f.hash, f.outcome)
      ensures fate.Refused? ==> Sessions.Absent(ledger.history, id)
      ensures fate.ReplyLost? ==> !Sessions.Acknowledged(ledger.history, id)
      ensures Sessions.Dated(ledger.history, id, old(ledger).live[id].start, old(ledger).live[id].ttl)
      ensures !fate.Refused? ==> flow == CommitAll(old(flow), WritesOf(old(ledger).live[id].phase), old(ledger).live[id].start)
    {
      ghost var s := ledger;
      if fate.Refused? {
        Rollback(id);
        return Err(Sessions.CommitFailed);
      }
      ghost var step := Call(L.Commit(id, fate.Done?));
      LeadsStep(Current(), step);
      LeadsReachable(Current(), ApplyApi(Current(), step));
      assert L.IdsFresh(s) && L.TxnSound(s, id) by {
        ReachableApiSound(Current());
        LR.ReachableInv(ledger);
      }
      CommitKeepsRender(flow, WritesOf(ledger.live[id].phase), ledger.live[id].start);
      var outcome := L.FinishedCall(ledger, id, true).outcome;
      flow := CommitAll(flow, WritesOf(ledger.live[id].phase), ledger.live[id].start);
      ledger := L.Apply(ledger, L.Commit(id, fate.Done?));
      Sessions.FinishRecords(s, id, fate, ledger.history);
      r := if fate.Done? then Ok(outcome) else Err(Sessions.CommitFailed);
    }

    /** The mutation through `runAtomically`, begin to commit. The database moves along a run of the whole,
        whatever others do: in particular a result is stored only after both writes. An outcome is recorded;
        an execution carries exactly the probe and its event, and both are in their tables; an error leaves
        nothing unless the commit's own reply was lost. */
    method Mutate(key: L.Key, hash: string, ttl: int, d: Draft, how: Fate, heap: JsonGraph.Heap, payload: JsonGraph.Slot, body: Json)
      returns (id: nat, r: Result<L.Outcome, Sessions.StoreError>)
      requires ReachableApi(Current()) && O.FreshId(flow.outbox, d.eventId) && EventUnheld(ledger, d.eventId)
      requires JsonGraph.ValidHeap(heap) && JsonGraph.SlotIn(heap, payload)
      requires JsonGraph.Unfolds(heap, payload, flow.render(d.probe, d.value, d.receivedAt))
      modifies this
      ensures Moved(old(Current()), Current())
      ensures r.Ok? ==> Sessions.Recorded(ledger.history, |old(ledger).history|, id, key, hash, r.value)
      ensures r.Ok? && r.value.Executed? ==> r.value == L.Executed(200, body) && Published(ledger, flow, id, d)
      ensures r.Err? && !how.commit.ReplyLost? ==> Sessions.Absent(ledger.history, id)
      ensures r.Err? && how.commit.ReplyLost? ==> !Sessions.Acknowledged(ledger.history, id)
      ensures r.Ok? ==> how.commit.Done?
      ensures Sessions.Dated(ledger.history, id, old(ledger).clock, ttl)
      ensures r.Err? ==> (r.error.CommitFailed? && !how.commit.Done?)
                         || Failed(old(Current()), Current(), id, L.Storable(key, hash, ttl, 200), d, how, r.error)
    {
      ghost var first := Current();
      id := Begin(key, hash, ttl, d.eventId);
      ghost var begun := Current();
      var ok, error := Prepare(id, d, how, heap, payload, body);
      MovedOn(first, begun, Current());
      if !ok {
        FailedEarlier(first, begun, Current(), id, L.Storable(key, hash, ttl, 200), d, how, error);
        return id, Err(error);
      }
      ghost var prepared := Current();
      r := Conclude(id, how.commit);
      MovedOn(first, prepared, Current());
      LeadsReachable(first, prepared);
      if r.Ok? && r.value.Executed? {
        CommitCreates(prepared.flow, WritesOf(prepared.ledger.live[id].phase), prepared.ledger.live[id].start);
      }
    }

    /** What may be committed: a decision, or the result beside both writes. */
    predicate Prepared(id: nat, d: Draft, body: Json)
      reads this
    {
      && LS.CanCommit(ledger, id)
      && match ledger.live[id].phase
         case Decided(outcome) => !outcome.Executed?
         case p => IsStored(p, [InsertOf(d), AppendOf(flow, d)], body)
    }

    /** Everything between begin and commit. */
    method Prepare(id: nat, d: Draft, how: Fate, heap: JsonGraph.Heap, payload: JsonGraph.Slot, body: Json)
      returns (ok: bool, error: Sessions.StoreError)
      requires ReachableApi(Current()) && L.InPhase(ledger, id, L.Begun) && FreshFor(Current(), id, d.eventId)
      requires JsonGraph.ValidHeap(heap) && JsonGraph.SlotIn(heap, payload)
      requires JsonGraph.Unfolds(heap, payload, flow.render(d.probe, d.value, d.receivedAt))
      modifies this
      ensures Moved(old(Current()), Current())
      ensures ok ==> Goes(id, old(ledger).live[id], d.eventId) && Prepared(id, d, body)
      ensures !ok ==> id !in ledger.live && Sessions.Absent(ledger.history, id)
      ensures !ok ==> Failed(old(Current()), Current(), id, L.ChecksPass(old(ledger).live[id], 200), d, how, error)
    {
      ghost var first, storable := Current(), L.ChecksPass(ledger.live[id], 200);
      error := Sessions.WaitCancelled;
      ok := Decide(id, d.eventId, how.patience);
      if !ok {
        return;
      }
      if ledger.live[id].phase.Running? {
        ghost var decided := Current();
        ok, error := Execute(id, d, how, heap, payload, body);
        MovedOn(first, decided, Current());
        if !ok { FailedEarlier(first, decided, Current(), id, storable, d, how, error); }
      } else {
        NotExecuted(Current(), id);
      }
    }

    /** A decided call is no execution. */
    lemma NotExecuted(a: Api, id: nat)
      requires ReachableApi(a) && id in a.ledger.live && a.ledger.live[id].phase.Decided?
      ensures !a.ledger.live[id].phase.outcome.Executed?
    {
      assert L.TxnSound(a.ledger, id) by {
        ReachableApiSound(a);
        LR.ReachableInv(a.ledger);
      }
    }

    /** The handler and the storing of its result. */
    method Execute(id: nat, d: Draft, how: Fate, heap: JsonGraph.Heap, payload: JsonGraph.Slot, body: Json)
      returns (ok: bool, error: Sessions.StoreError)
      requires ReachableApi(Current()) && L.InPhase(ledger, id, L.Running([])) && FreshFor(Current(), id, d.eventId)
      requires JsonGraph.ValidHeap(heap) && JsonGraph.SlotIn(heap, payload)
      requires JsonGraph.Unfolds(heap, payload, flow.render(d.probe, d.value, d.receivedAt))
      modifies this
      ensures Moved(old(Current()), Current())
      ensures ok ==> Goes(id, old(ledger).live[id], d.eventId) && IsStored(ledger.live[id].phase, [InsertOf(d), AppendOf(flow, d)], body)
      ensures !ok ==> id !in ledger.live && Sessions.Absent(ledger.history, id)
      ensures !ok ==> Failed(old(Current()), Current(), id, L.ChecksPass(old(ledger).live[id], 200), d, how, error)
    {
      ghost var first := Current();
      error := Sessions.HandlerFailed;
      ghost var tried;
      ok, tried := CreateProbe(id, d, how, heap, payload);
      if ok {
        ghost var created := Current();
        error := Sessions.NotPersisted;
        ok := Store(id, d, body);
        MovedOn(first, created, Current());
      }
    }
  }

  /** Why a mutation ends before its commit: it waited for a ledger row in vain, one of its writes was
      refused, or the ledger's constraints refuse its result. */
  ghost predicate Failed(a: Api, a': Api, id: nat, storable: bool, d: Draft, how: Fate, error: Sessions.StoreError) {
    match error
    case WaitCancelled => Waited(a, a', id)
    case HandlerFailed => Refused(a, a', id, d, how)
    case NotPersisted => !storable
    case CommitFailed => false
  }

  lemma FailedEarlier(a: Api, a1: Api, a2: Api, id: nat, storable: bool, d: Draft, how: Fate, error: Sessions.StoreError)
    requires Moved(a, a1) && Failed(a1, a2, id, storable, d, how, error)
    ensures Failed(a, a2, id, storable, d, how, error)
  {
    if error.WaitCancelled? { WaitedEarlier(a, a1, a2, id); }
    if error.HandlerFailed? { RefusedEarlier(a, a1, a2, id, d, how); }
  }

  /** The result is stored beside these writes. */
  predicate IsStored(p: L.Phase, ws: seq<L.Write>, body: Json) {
    p.Inserted? && p.writes == ws && p.body == body && p.record.status == 200
  }

  /** The call's entry carries the probe and its event, and the tables hold both. */
  ghost predicate Published(s: L.State, f: Flow, id: nat, d: Draft) {
    && d.probe in f.probes && f.probes[d.probe] == Probe(d.value, d.receivedAt, None)
    && d.eventId in f.sent && Drafted(f, f.sent[d.eventId], d)
    && Sessions.EffectOf(s.history, id, [L.InsertProbe(d.probe, d.value, d.receivedAt), L.AppendEvent(f.sent[d.eventId])])
  }
}
