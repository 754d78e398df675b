/** Mutations and deliveries over one database: the ledger machine, whose transactions write the probe and
    its event statement by statement, beside the flow of workers. What a transaction writes is seen by
    nobody until it commits, and is gone if it does not. */
module ReferenceApi {
  import opened Prelude
  import L = LedgerMachine
  import LR = LedgerRefinement
  import Sessions = IdempotencyStore
  import O = OutboxMachine
  import opened ReferenceFlow
  import FlowRuns

  datatype Api = Api(ledger: L.State, flow: Flow)

  datatype ApiStep = Advance(to: int) | Call(step: L.Step) | Side(action: FlowStep)

  // ----- what a transaction has written so far -----

  type Writes = seq<L.Write>

  function WritesOf(p: L.Phase): Writes {
    match p
    case Running(ws) => ws
    case Inserted(ws, _, _) => ws
    case _ => []
  }

  predicate HoldsProbe(ws: Writes) { |ws| > 0 && ws[0].InsertProbe? }

  predicate HoldsEvent(ws: Writes) { HoldsProbe(ws) && |ws| == 2 && ws[1].AppendEvent? }

  predicate AllOther(ws: Writes) {
    forall i :: 0 <= i < |ws| ==> ws[i].OtherWrite?
  }

  /** Two transactions do not hold the same probe or event identifier. */
  predicate Apart(a: Writes, b: Writes) {
    && (HoldsProbe(a) && HoldsProbe(b) ==> a[0].probe != b[0].probe)
    && (HoldsEvent(a) && HoldsEvent(b) ==> a[1].event.id != b[1].event.id)
  }

  /** The event announces the probe. */
  predicate Announced(f: Flow, probe: L.Write, event: L.Write) {
    && probe.InsertProbe? && event.AppendEvent?
    && CarriesProbe(f, event.event, probe.probe, probe.value, probe.createdAt)
  }

  /** As far as the create handler has come: nothing, the probe, or the probe and its event. Its probe is
      not in the table yet and its event not in the outbox. Other handlers write other rows. */
  ghost predicate Fits(f: Flow, ws: Writes) {
    || AllOther(ws)
    || (|ws| == 1 && HoldsProbe(ws) && InsertAccepted(f, ws[0].probe, ws[0].value))
    || (HoldsEvent(ws) && InsertAccepted(f, ws[0].probe, ws[0].value) && Announced(f, ws[0], ws[1])
        && O.FreshId(f.outbox, ws[1].event.id))
  }

  // ----- the machine -----

  /** Nobody else's uncommitted transaction holds the probe: its insert does not wait. */
  predicate ProbeFree(s: L.State, me: nat, probe: nat) {
    forall id :: id in s.live && id != me && HoldsProbe(WritesOf(s.live[id].phase)) ==> WritesOf(s.live[id].phase)[0].probe != probe
  }

  /** Event identifiers are random: nobody else's transaction holds this one. */
  predicate EventFree(s: L.State, me: nat, event: nat) {
    forall id :: id in s.live && id != me && HoldsEvent(WritesOf(s.live[id].phase)) ==> WritesOf(s.live[id].phase)[1].event.id != event
  }

  predicate EventUnheld(s: L.State, event: nat) {
    forall id :: id in s.live && HoldsEvent(WritesOf(s.live[id].phase)) ==> WritesOf(s.live[id].phase)[1].event.id != event
  }

  /** The next statement of a handler: the create handler inserts the probe, which must pass the table's
      constraints, and then appends its event. */
  ghost predicate WriteFits(a: Api, id: nat, w: L.Write)
    requires id in a.ledger.live
  {
    var ws := WritesOf(a.ledger.live[id].phase);
    match w
    case InsertProbe(probe, value, _) => ws == [] && InsertAccepted(a.flow, probe, value) && ProbeFree(a.ledger, id, probe)
    case AppendEvent(event) =>
      && |ws| == 1 && Announced(a.flow, ws[0], w)
      && O.FreshId(a.flow.outbox, event.id) && EventFree(a.ledger, id, event.id)
    case OtherWrite(_) => AllOther(ws)
  }

  /** The handler has returned. */
  predicate Complete(ws: Writes) { AllOther(ws) || HoldsEvent(ws) }

  ghost predicate EnabledApi(a: Api, step: ApiStep) {
    match step
    case Advance(to) => to >= a.ledger.clock && to >= a.flow.outbox.clock
    case Call(s) =>
      && L.Enabled(a.ledger, s) && !s.Tick?
      && (s.HandlerWrite? ==> WriteFits(a, s.id, s.write))
      && (s.Insert? ==> Complete(WritesOf(a.ledger.live[s.id].phase)))
    case Side(s) =>
      && EnabledFlow(a.flow, s) && !s.Create? && !(s.Outbox? && s.step.Tick?)
      && (s.Outbox? && s.step.Append? ==> EventUnheld(a.ledger, s.step.event.id))
  }

  /** One write of a transaction that started at `start` becomes visible. */
  function CommitOne(f: Flow, w: L.Write, start: int): Flow {
    match w
    case InsertProbe(probe, value, createdAt) => f.(probes := f.probes[probe := Probe(value, createdAt, None)])
    case AppendEvent(e) =>
      f.(outbox := O.SetRow(f.outbox, e.id, O.NewRow(e, start), O.Appended(e.id)), sent := f.sent[e.id := e])
    case OtherWrite(_) => f
  }

  function CommitAll(f: Flow, ws: Writes, start: int): Flow
    decreases |ws|
  {
    if ws == [] then f else CommitAll(CommitOne(f, ws[0], start), ws[1..], start)
  }

  ghost function ApplyApi(a: Api, step: ApiStep): Api
    requires EnabledApi(a, step)
  {
    match step
    case Advance(to) => Api(a.ledger.(clock := to), a.flow.(outbox := a.flow.outbox.(clock := to)))
    case Call(s) =>
      Api(L.Apply(a.ledger, s),
          if s.Commit? then CommitAll(a.flow, WritesOf(a.ledger.live[s.id].phase), a.ledger.live[s.id].start) else a.flow)
    case Side(s) => a.(flow := ApplyFlow(a.flow, s))
  }

  ghost predicate RunApi(a: Api, steps: seq<ApiStep>, a': Api)
    decreases |steps|
  {
    if steps == [] then a == a' else EnabledApi(a, steps[0]) && RunApi(ApplyApi(a, steps[0]), steps[1..], a')
  }

  ghost predicate InitialApi(a: Api) {
    L.Initial(a.ledger) && InitialFlow(a.flow) && a.ledger.clock == a.flow.outbox.clock
  }

  // ----- the invariant -----

  ghost predicate LiveFits(s: L.State, f: Flow) {
    forall id :: id in s.live ==>
      Fits(f, WritesOf(s.live[id].phase)) && (s.live[id].phase.Inserted? ==> Complete(WritesOf(s.live[id].phase)))
  }

  ghost predicate LiveApart(s: L.State) {
    forall i, j :: i in s.live && j in s.live && i != j ==> Apart(WritesOf(s.live[i].phase), WritesOf(s.live[j].phase))
  }

  /** In the committed writes every probe is followed at once by its event, every event is one that follows
      its probe, and no probe comes twice. */
  predicate Paired(f: Flow, ws: Writes) {
    && (forall i :: 0 <= i < |ws| && ws[i].InsertProbe? ==> i + 1 < |ws| && Announced(f, ws[i], ws[i + 1]))
    && (forall i :: 0 <= i < |ws| && ws[i].AppendEvent? ==> i > 0 && Announced(f, ws[i - 1], ws[i]))
    && (forall i, j :: 0 <= i < j < |ws| && ws[i].InsertProbe? && ws[j].InsertProbe? ==> ws[i].probe != ws[j].probe)
  }

  predicate ProbeRow(f: Flow, w: L.Write) {
    && w.InsertProbe? && w.probe in f.probes
    && f.probes[w.probe].value == w.value && f.probes[w.probe].createdAt == w.createdAt
  }

  /** The tables hold what was committed: the probes inserted and the created events appended. */
  ghost predicate Stored(f: Flow, ws: Writes) {
    && (forall i :: 0 <= i < |ws| && ws[i].InsertProbe? ==> ProbeRow(f, ws[i]))
    && (forall i :: 0 <= i < |ws| && ws[i].AppendEvent? ==> AboutProbe(f, ws[i].event.id) && f.sent[ws[i].event.id] == ws[i].event)
    && (forall p :: p in f.probes ==> exists i :: 0 <= i < |ws| && ws[i].InsertProbe? && ws[i].probe == p)
    && (forall id :: AboutProbe(f, id) ==> exists i :: 0 <= i < |ws| && ws[i].AppendEvent? && ws[i].event.id == id)
  }

  /** Both machines are in states of their own runs, on one clock, and fit together. */
  ghost predicate ApiSound(a: Api) {
    && LR.Reachable(a.ledger) && ReachableFlow(a.flow) && a.ledger.clock == a.flow.outbox.clock
    && LiveFits(a.ledger, a.flow) && LiveApart(a.ledger)
    && Paired(a.flow, a.ledger.product) && Stored(a.flow, a.ledger.product)
  }

  // ----- the two machines apart -----

  lemma LedgerOn(s: L.State, step: L.Step)
    requires LR.Reachable(s) && L.Enabled(s, step)
    ensures LR.Reachable(L.Apply(s, step))
  {
    var s0, steps :| L.Initial(s0) && L.Run(s0, steps, s);
    Sessions.LeadsStep(s, step);
    var more :| L.Run(s, more, L.Apply(s, step));
    Sessions.RunAppend(s0, steps, s, more, L.Apply(s, step));
  }

  lemma FlowOn(f: Flow, step: FlowStep)
    requires ReachableFlow(f) && EnabledFlow(f, step)
    ensures ReachableFlow(ApplyFlow(f, step))
  {
    FlowRuns.LeadsStep(f, step, false);
    FlowRuns.LeadsReachable(f, ApplyFlow(f, step));
  }

  /** The heart of the refinement: committing what the create handler wrote, statement by statement, is the
      one step that creates the probe with its event. */
  lemma CommitIsCreate(f: Flow, ws: Writes, start: int)
    requires ReachableFlow(f) && Fits(f, ws) && HoldsEvent(ws) && start <= f.outbox.clock
    ensures var create := Create(ws[0].probe, ws[0].value, ws[0].createdAt, ws[1].event.id, start);
            EnabledFlow(f, create) && CommitAll(f, ws, start) == ApplyFlow(f, create) && ReachableFlow(CommitAll(f, ws, start))
  {
    var create := Create(ws[0].probe, ws[0].value, ws[0].createdAt, ws[1].event.id, start);
    assert ws[1..][0] == ws[1] && ws[1..][1..] == [];
    var f1 := CommitOne(f, ws[0], start);
    assert CommitAll(f, ws, start) == CommitAll(f1, ws[1..], start);
    assert CommitAll(f1, ws[1..], start) == CommitAll(CommitOne(f1, ws[1], start), [], start);
    FlowOn(f, create);
  }

  lemma {:induction false} CommitOthers(f: Flow, ws: Writes, start: int)
    requires AllOther(ws)
    ensures CommitAll(f, ws, start) == f
    decreases |ws|
  {
    if ws != [] { CommitOthers(f, ws[1..], start); }
  }

  lemma {:induction false} CommitKeepsRender(f: Flow, ws: Writes, start: int)
    ensures CommitAll(f, ws, start).render == f.render
    decreases |ws|
  {
    if ws != [] { CommitKeepsRender(CommitOne(f, ws[0], start), ws[1..], start); }
  }

  // ----- steps that commit nothing -----

  /** From `f` to `f'` no probe and no created event appears, and the probes keep their contents. */
  ghost predicate SameProbes(f: Flow, f': Flow) {
    && f'.render == f.render && f'.probes.Keys == f.probes.Keys
    && (forall p :: p in f.probes ==> f'.probes[p].value == f.probes[p].value && f'.probes[p].createdAt == f.probes[p].createdAt)
    && (forall id :: AboutProbe(f', id) <==> AboutProbe(f, id)) && (forall id :: AboutProbe(f, id) ==> f'.sent[id] == f.sent[id])
  }

  lemma StoredStays(f: Flow, f': Flow, ws: Writes)
    requires SameProbes(f, f') && Paired(f, ws) && Stored(f, ws)
    ensures Paired(f', ws) && Stored(f', ws)
  {
    forall p | p in f'.probes ensures exists i :: 0 <= i < |ws| && ws[i].InsertProbe? && ws[i].probe == p {
      assert p in f.probes;
    }
    forall id | AboutProbe(f', id) ensures exists i :: 0 <= i < |ws| && ws[i].AppendEvent? && ws[i].event.id == id {
      assert AboutProbe(f, id);
    }
  }

  lemma FitsStays(f: Flow, f': Flow, ws: Writes)
    requires SameProbes(f, f') && Fits(f, ws) && (HoldsEvent(ws) ==> O.FreshId(f'.outbox, ws[1].event.id))
    ensures Fits(f', ws)
  {
  }

  /** An identifier stays fresh until it is appended. */
  lemma FreshStays(f: Flow, step: FlowStep, id: nat)
    requires ReachableFlow(f) && EnabledFlow(f, step) && !step.Create? && O.FreshId(f.outbox, id)
    requires step.Outbox? && step.step.Append? ==> step.step.event.id != id
    ensures O.FreshId(ApplyFlow(f, step).outbox, id)
  {
    if step.Outbox? && !step.step.Append? {
      FlowOn(f, step);
      LoggedWasLogged(f, ApplyFlow(f, step), step.step, id);
    }
  }

  lemma LoggedWasLogged(f: Flow, f': Flow, step: O.Step, id: nat)
    requires ReachableFlow(f') && O.Enabled(f.outbox, step) && !step.Append? && f'.outbox == O.Apply(f.outbox, step)
    requires O.FreshId(f.outbox, id)
    ensures O.FreshId(f'.outbox, id)
  {
    assert O.Conserved(f'.outbox) by { ReachableFlowInv(f'); }
    StepExtends(f.outbox, step);
    var log, log' := f.outbox.log, f'.outbox.log;
    assert O.Appended(id) !in log' by {
      assert forall i :: 0 <= i < |log| ==> log[i] == log'[i];
    }
  }

  lemma SideKeepsProbes(f: Flow, step: FlowStep)
    requires ReachableFlow(f) && EnabledFlow(f, step) && !step.Create?
    ensures SameProbes(f, ApplyFlow(f, step))
  {
    if step.Outbox? && step.step.Append? {
      assert SentIsAppended(f) by { ReachableFlowInv(f); }
      FreshNotSent(f, step.step.event.id);
    }
  }

  lemma SideKeeps(a: Api, step: FlowStep)
    requires ApiSound(a) && EnabledApi(a, Side(step))
    ensures ApiSound(ApplyApi(a, Side(step)))
  {
    var f, f' := a.flow, ApplyFlow(a.flow, step);
    FlowOn(f, step);
    SideKeepsProbes(f, step);
    StoredStays(f, f', a.ledger.product);
    SideKeepsLive(a, step);
    SideKeepsClock(f, step);
  }

  lemma SideKeepsClock(f: Flow, step: FlowStep)
    requires EnabledFlow(f, step) && !step.Create? && !(step.Outbox? && step.step.Tick?)
    ensures ApplyFlow(f, step).outbox.clock == f.outbox.clock
  {
    if step.Outbox? {
      match step.step
      case Claim(order, limit, leaseMs, worker, now) =>
        O.ClaimOrderInTable(f.outbox, order, limit, now);
        ClaimClock(f.outbox, order, leaseMs, worker, now);
      case Purge(victims, _, _, _) => PurgeClock(f.outbox, victims);
      case _ =>
    }
  }

  lemma {:induction false} ClaimClock(s: O.State, order: seq<nat>, leaseMs: int, worker: string, now: int)
    requires forall id :: id in order ==> id in s.table
    ensures O.ClaimAll(s, order, leaseMs, worker, now).clock == s.clock
    decreases |order|
  {
    if order != [] { ClaimClock(O.ClaimOne(s, order[0], leaseMs, worker, now), order[1..], leaseMs, worker, now); }
  }

  lemma {:induction false} PurgeClock(s: O.State, victims: set<nat>)
    ensures O.PurgeAll(s, victims).clock == s.clock
    decreases victims
  {
    if victims != {} {
      var id :| id in victims && O.PurgeAll(s, victims) == O.PurgeAll(O.PurgeOne(s, id), victims - {id});
      PurgeClock(O.PurgeOne(s, id), victims - {id});
    }
  }

  lemma SideKeepsLive(a: Api, step: FlowStep)
    requires ReachableFlow(a.flow) && LiveFits(a.ledger, a.flow) && EnabledApi(a, Side(step))
    requires SameProbes(a.flow, ApplyFlow(a.flow, step))
    ensures LiveFits(a.ledger, ApplyFlow(a.flow, step))
  {
    var f' := ApplyFlow(a.flow, step);
    forall id | id in a.ledger.live ensures Fits(f', WritesOf(a.ledger.live[id].phase)) {
      var ws := WritesOf(a.ledger.live[id].phase);
      if HoldsEvent(ws) { FreshStays(a.flow, step, ws[1].event.id); }
      FitsStays(a.flow, f', ws);
    }
  }

  // ----- steps of transactions -----

  /** Only a handler's write changes what a transaction has written; a new one has written nothing. */
  lemma WritesStay(s: L.State, step: L.Step, id: nat)
    requires L.Enabled(s, step) && !step.HandlerWrite? && s.nextId !in s.live && id in L.Apply(s, step).live
    ensures WritesOf(L.Apply(s, step).live[id].phase) == (if id in s.live then WritesOf(s.live[id].phase) else [])
  {
  }

  lemma InsertedByInsert(s: L.State, step: L.Step, id: nat)
    requires L.Enabled(s, step) && id in L.Apply(s, step).live && L.Apply(s, step).live[id].phase.Inserted?
    ensures id in s.live && (s.live[id].phase.Inserted? || (step.Insert? && step.id == id))
  {
  }

  lemma NextIsNew(s: L.State)
    requires LR.Reachable(s)
    ensures s.nextId !in s.live && forall id :: id in s.live ==> s.live[id].start <= s.clock
  {
    LR.ReachableInv(s);
    forall id | id in s.live ensures s.live[id].start <= s.clock { assert L.TxnSound(s, id); }
  }

  lemma CallKeepsLive(s: L.State, f: Flow, step: L.Step)
    requires L.Enabled(s, step) && !step.HandlerWrite? && s.nextId !in s.live && LiveFits(s, f) && LiveApart(s)
    requires step.Insert? ==> Complete(WritesOf(s.live[step.id].phase))
    ensures LiveFits(L.Apply(s, step), f) && LiveApart(L.Apply(s, step))
  {
    var s' := L.Apply(s, step);
    forall id | id in s'.live
      ensures Fits(f, WritesOf(s'.live[id].phase)) && (s'.live[id].phase.Inserted? ==> Complete(WritesOf(s'.live[id].phase)))
    {
      WritesStay(s, step, id);
      if s'.live[id].phase.Inserted? { InsertedByInsert(s, step, id); }
    }
    forall i, j | i in s'.live && j in s'.live && i != j ensures Apart(WritesOf(s'.live[i].phase), WritesOf(s'.live[j].phase)) {
      WritesStay(s, step, i);
      WritesStay(s, step, j);
    }
  }

  /** Without a commit the product and the clock are as they were. */
  lemma CallQuiet(s: L.State, step: L.Step)
    requires L.Enabled(s, step) && !step.Tick?
    ensures L.Apply(s, step).clock == s.clock
    ensures !step.Commit? ==> L.Apply(s, step).product == s.product
  {
  }

  lemma CallKeeps(a: Api, step: L.Step)
    requires ApiSound(a) && EnabledApi(a, Call(step)) && !step.HandlerWrite? && !step.Commit?
    ensures ApiSound(ApplyApi(a, Call(step)))
  {
    LedgerOn(a.ledger, step);
    NextIsNew(a.ledger);
    CallQuiet(a.ledger, step);
    CallKeepsLive(a.ledger, a.flow, step);
  }

  // ----- a handler's write -----

  lemma OneWrite(s: L.State, id: nat, w: L.Write, i: nat)
    requires L.Enabled(s, L.HandlerWrite(id, w)) && i in s.live
    ensures var s' := L.Apply(s, L.HandlerWrite(id, w));
            && s'.live.Keys == s.live.Keys && (s'.live[i].phase.Inserted? <==> s.live[i].phase.Inserted?)
            && WritesOf(s'.live[i].phase) == WritesOf(s.live[i].phase) + (if i == id then [w] else [])
  {
    assert WritesOf(s.live[i].phase) + [] == WritesOf(s.live[i].phase);
  }

  lemma WriteFitsOn(a: Api, id: nat, w: L.Write)
    requires id in a.ledger.live && Fits(a.flow, WritesOf(a.ledger.live[id].phase)) && WriteFits(a, id, w)
    ensures Fits(a.flow, WritesOf(a.ledger.live[id].phase) + [w])
  {
  }

  lemma WriteApart(a: Api, id: nat, w: L.Write, i: nat)
    requires id in a.ledger.live && i in a.ledger.live && i != id && WriteFits(a, id, w)
    requires Apart(WritesOf(a.ledger.live[id].phase), WritesOf(a.ledger.live[i].phase))
    ensures Apart(WritesOf(a.ledger.live[id].phase) + [w], WritesOf(a.ledger.live[i].phase))
    ensures Apart(WritesOf(a.ledger.live[i].phase), WritesOf(a.ledger.live[id].phase) + [w])
  {
  }

  lemma WriteKeepsLive(a: Api, id: nat, w: L.Write)
    requires LiveFits(a.ledger, a.flow) && LiveApart(a.ledger) && EnabledApi(a, Call(L.HandlerWrite(id, w)))
    ensures LiveFits(L.Apply(a.ledger, L.HandlerWrite(id, w)), a.flow) && LiveApart(L.Apply(a.ledger, L.HandlerWrite(id, w)))
  {
    var s, s' := a.ledger, L.Apply(a.ledger, L.HandlerWrite(id, w));
    WriteFitsOn(a, id, w);
    forall i | i in s'.live
      ensures Fits(a.flow, WritesOf(s'.live[i].phase)) && (s'.live[i].phase.Inserted? ==> Complete(WritesOf(s'.live[i].phase)))
    {
      OneWrite(s, id, w, i);
      assert WritesOf(s.live[i].phase) + [] == WritesOf(s.live[i].phase);
    }
    forall i, j | i in s'.live && j in s'.live && i != j ensures Apart(WritesOf(s'.live[i].phase), WritesOf(s'.live[j].phase)) {
      PairApart(a, id, w, i, j);
    }
  }

  lemma PairApart(a: Api, id: nat, w: L.Write, i: nat, j: nat)
    requires LiveApart(a.ledger) && EnabledApi(a, Call(L.HandlerWrite(id, w)))
    requires i in a.ledger.live && j in a.ledger.live && i != j
    ensures var s' := L.Apply(a.ledger, L.HandlerWrite(id, w));
            i in s'.live && j in s'.live && Apart(WritesOf(s'.live[i].phase), WritesOf(s'.live[j].phase))
  {
    var s := a.ledger;
    OneWrite(s, id, w, i);
    OneWrite(s, id, w, j);
    assert WritesOf(s.live[i].phase) + [] == WritesOf(s.live[i].phase) && WritesOf(s.live[j].phase) + [] == WritesOf(s.live[j].phase);
    assert Apart(WritesOf(s.live[i].phase), WritesOf(s.live[j].phase));
    if i == id { WriteApart(a, id, w, j); } else if j == id { WriteApart(a, id, w, i); }
  }

  lemma WriteKeeps(a: Api, id: nat, w: L.Write)
    requires ApiSound(a) && EnabledApi(a, Call(L.HandlerWrite(id, w)))
    ensures ApiSound(ApplyApi(a, Call(L.HandlerWrite(id, w))))
  {
    LedgerOn(a.ledger, L.HandlerWrite(id, w));
    CallQuiet(a.ledger, L.HandlerWrite(id, w));
    WriteKeepsLive(a, id, w);
  }

  // ----- a commit -----

  lemma CommitProduct(s: L.State, id: nat, ack: bool)
    requires L.Enabled(s, L.Commit(id, ack))
    ensures var s' := L.Apply(s, L.Commit(id, ack));
            s'.product == s.product + (if s.live[id].phase.Inserted? then WritesOf(s.live[id].phase) else []) && s'.clock == s.clock
    ensures !s.live[id].phase.Inserted? ==> WritesOf(s.live[id].phase) == []
  {
  }

  lemma OthersStored(f: Flow, product: Writes, ws: Writes)
    requires Paired(f, product) && Stored(f, product) && AllOther(ws)
    ensures Paired(f, product + ws) && Stored(f, product + ws)
  {
    var all := product + ws;
    forall p | p in f.probes ensures exists i :: 0 <= i < |all| && all[i].InsertProbe? && all[i].probe == p {
      var i :| 0 <= i < |product| && product[i].InsertProbe? && product[i].probe == p;
      assert all[i] == product[i];
    }
    forall id | AboutProbe(f, id) ensures exists i :: 0 <= i < |all| && all[i].AppendEvent? && all[i].event.id == id {
      var i :| 0 <= i < |product| && product[i].AppendEvent? && product[i].event.id == id;
      assert all[i] == product[i];
    }
  }

  lemma CommitOthersKeeps(a: Api, id: nat, ack: bool)
    requires ApiSound(a) && EnabledApi(a, Call(L.Commit(id, ack))) && AllOther(WritesOf(a.ledger.live[id].phase))
    ensures ApiSound(ApplyApi(a, Call(L.Commit(id, ack))))
  {
    var ws := WritesOf(a.ledger.live[id].phase);
    LedgerOn(a.ledger, L.Commit(id, ack));
    CommitProduct(a.ledger, id, ack);
    NextIsNew(a.ledger);
    CallKeepsLive(a.ledger, a.flow, L.Commit(id, ack));
    CommitOthers(a.flow, ws, a.ledger.live[id].start);
    OthersStored(a.flow, a.ledger.product, if a.ledger.live[id].phase.Inserted? then ws else []);
  }

  /** The tables after the create handler's commit. */
  ghost predicate Created(f: Flow, f': Flow, ws: Writes) {
    && HoldsEvent(ws) && f'.render == f.render
    && f'.probes == f.probes[ws[0].probe := Probe(ws[0].value, ws[0].createdAt, None)]
    && f'.sent == f.sent[ws[1].event.id := ws[1].event]
    && f'.outbox.log == f.outbox.log + [O.Appended(ws[1].event.id)] && f'.outbox.clock == f.outbox.clock
  }

  lemma CreatedFits(f: Flow, f': Flow, ws: Writes, others: Writes)
    requires Created(f, f', ws) && Fits(f, others) && Apart(ws, others)
    ensures Fits(f', others)
  {
  }

  lemma CreatedPaired(f: Flow, f': Flow, ws: Writes, product: Writes)
    requires Created(f, f', ws) && Fits(f, ws) && Paired(f, product) && Stored(f, product)
    ensures Paired(f', product + ws)
  {
    var all, n := product + ws, |product|;
    assert all[n] == ws[0] && all[n + 1] == ws[1] && |all| == n + 2;
    forall i | 0 <= i < |all| && all[i].InsertProbe? ensures i + 1 < |all| && Announced(f', all[i], all[i + 1]) {
      if i < n { assert Announced(f, product[i], product[i + 1]); }
    }
    forall i | 0 <= i < |all| && all[i].AppendEvent? ensures i > 0 && Announced(f', all[i - 1], all[i]) {
      if i < n { assert Announced(f, product[i - 1], product[i]); }
    }
    forall i, j | 0 <= i < j < |all| && all[i].InsertProbe? && all[j].InsertProbe? ensures all[i].probe != all[j].probe {
      if j >= n { assert ProbeRow(f, product[i]); }
    }
  }

  lemma CreatedStored(f: Flow, f': Flow, ws: Writes, product: Writes)
    requires Created(f, f', ws) && Fits(f, ws) && Stored(f, product) && ws[1].event.id !in f.sent
    ensures Stored(f', product + ws)
  {
    var all, n := product + ws, |product|;
    assert all[n] == ws[0] && all[n + 1] == ws[1] && |all| == n + 2;
    forall i | 0 <= i < |all| && all[i].InsertProbe? ensures ProbeRow(f', all[i]) {
      if i < n { assert ProbeRow(f, product[i]); }
    }
    forall p | p in f'.probes ensures exists i :: 0 <= i < |all| && all[i].InsertProbe? && all[i].probe == p {
      if p == ws[0].probe {
        assert all[n].probe == p;
      } else {
        var i :| 0 <= i < n && product[i].InsertProbe? && product[i].probe == p;
        assert all[i] == product[i];
      }
    }
    forall id | AboutProbe(f', id) ensures exists i :: 0 <= i < |all| && all[i].AppendEvent? && all[i].event.id == id {
      if id == ws[1].event.id {
        assert all[n + 1].event.id == id;
      } else {
        assert AboutProbe(f, id);
        var i :| 0 <= i < n && product[i].AppendEvent? && product[i].event.id == id;
        assert all[i] == product[i];
      }
    }
  }

  lemma CreatedLive(s: L.State, f: Flow, f': Flow, id: nat, ack: bool)
    requires L.Enabled(s, L.Commit(id, ack)) && Created(f, f', WritesOf(s.live[id].phase)) && s.nextId !in s.live
    requires LiveFits(s, f) && LiveApart(s)
    ensures LiveFits(L.Apply(s, L.Commit(id, ack)), f') && LiveApart(L.Apply(s, L.Commit(id, ack)))
  {
    var s', ws := L.Apply(s, L.Commit(id, ack)), WritesOf(s.live[id].phase);
    CallKeepsLive(s, f, L.Commit(id, ack));
    forall i | i in s'.live ensures Fits(f', WritesOf(s'.live[i].phase)) {
      OthersLive(s, id, ack, i);
      CreatedFits(f, f', ws, WritesOf(s'.live[i].phase));
    }
  }

  lemma OthersLive(s: L.State, id: nat, ack: bool, i: nat)
    requires L.Enabled(s, L.Commit(id, ack)) && i in L.Apply(s, L.Commit(id, ack)).live
    ensures i != id && i in s.live && L.Apply(s, L.Commit(id, ack)).live[i] == s.live[i]
  {
  }

  lemma CommitCreates(f: Flow, ws: Writes, start: int)
    requires HoldsEvent(ws)
    ensures Created(f, CommitAll(f, ws, start), ws)
  {
    var f1 := CommitOne(f, ws[0], start);
    assert ws[1..][0] == ws[1] && ws[1..][1..] == [];
    assert CommitAll(f, ws, start) == CommitAll(f1, ws[1..], start);
    assert CommitAll(f1, ws[1..], start) == CommitAll(CommitOne(f1, ws[1], start), [], start);
  }

  lemma CommitCreateKeeps(a: Api, id: nat, ack: bool)
    requires ApiSound(a) && EnabledApi(a, Call(L.Commit(id, ack))) && HoldsEvent(WritesOf(a.ledger.live[id].phase))
    ensures ApiSound(ApplyApi(a, Call(L.Commit(id, ack))))
  {
    var s, f, ws := a.ledger, a.flow, WritesOf(a.ledger.live[id].phase);
    var f' := CommitAll(f, ws, s.live[id].start);
    LedgerOn(s, L.Commit(id, ack));
    CommitProduct(s, id, ack);
    NextIsNew(s);
    CommitIsCreate(f, ws, s.live[id].start);
    CommitCreates(f, ws, s.live[id].start);
    CreatedLive(s, f, f', id, ack);
    CreatedPaired(f, f', ws, s.product);
    assert SentIsAppended(f) by { ReachableFlowInv(f); }
    FreshNotSent(f, ws[1].event.id);
    CreatedStored(f, f', ws, s.product);
  }

  lemma CommitKeeps(a: Api, id: nat, ack: bool)
    requires ApiSound(a) && EnabledApi(a, Call(L.Commit(id, ack)))
    ensures ApiSound(ApplyApi(a, Call(L.Commit(id, ack))))
  {
    CommitProduct(a.ledger, id, ack);
    if HoldsEvent(WritesOf(a.ledger.live[id].phase)) { CommitCreateKeeps(a, id, ack); } else { CommitOthersKeeps(a, id, ack); }
  }

  // ----- time -----

  lemma AdvanceKeeps(a: Api, to: int)
    requires ApiSound(a) && EnabledApi(a, Advance(to))
    ensures ApiSound(ApplyApi(a, Advance(to)))
  {
    var f, f' := a.flow, ApplyFlow(a.flow, Outbox(O.Tick(to)));
    LedgerOn(a.ledger, L.Tick(to));
    FlowOn(f, Outbox(O.Tick(to)));
    assert SameProbes(f, f');
    StoredStays(f, f', a.ledger.product);
    forall id | id in a.ledger.live ensures Fits(f', WritesOf(a.ledger.live[id].phase)) {
      FitsStays(f, f', WritesOf(a.ledger.live[id].phase));
    }
  }

  // ----- every run -----

  lemma ApiStepKeeps(a: Api, step: ApiStep)
    requires ApiSound(a) && EnabledApi(a, step)
    ensures ApiSound(ApplyApi(a, step))
  {
    match step
    case Advance(to) => AdvanceKeeps(a, to);
    case Side(action) => SideKeeps(a, action);
    case Call(HandlerWrite(id, w)) => WriteKeeps(a, id, w);
    case Call(Commit(id, ack)) => CommitKeeps(a, id, ack);
    case Call(s) => CallKeeps(a, s);
  }

  lemma {:induction false} ApiRunKeeps(a: Api, steps: seq<ApiStep>, a': Api)
    requires ApiSound(a) && RunApi(a, steps, a')
    ensures ApiSound(a')
    decreases |steps|
  {
    if steps != [] {
      ApiStepKeeps(a, steps[0]);
      ApiRunKeeps(ApplyApi(a, steps[0]), steps[1..], a');
    }
  }

  ghost predicate ReachableApi(a: Api) {
    exists a0, steps :: InitialApi(a0) && RunApi(a0, steps, a)
  }

  lemma ReachableApiSound(a: Api)
    requires ReachableApi(a)
    ensures ApiSound(a)
  {
    var a0, steps :| InitialApi(a0) && RunApi(a0, steps, a);
    assert L.Run(a0.ledger, [], a0.ledger) && RunFlow(a0.flow, [], a0.flow);
    ApiRunKeeps(a0, steps, a);
  }

  // ----- the guarantees -----

  /** A step of the whole is a step of each machine, or none. */
  lemma ApiStepLeads(a: Api, step: ApiStep)
    requires ApiSound(a) && EnabledApi(a, step)
    ensures Sessions.Leads(a.ledger, ApplyApi(a, step).ledger) && FlowRuns.Leads(a.flow, ApplyApi(a, step).flow, false)
  {
    match step
    case Advance(to) =>
      Sessions.LeadsStep(a.ledger, L.Tick(to));
      FlowRuns.LeadsStep(a.flow, Outbox(O.Tick(to)), false);
    case Side(action) =>
      Sessions.LeadsNowhere(a.ledger);
      FlowRuns.LeadsStep(a.flow, action, false);
    case Call(s) =>
      Sessions.LeadsStep(a.ledger, s);
      FlowRuns.LeadsNowhere(a.flow, false);
      if s.Commit? { CommitLeads(a, s.id, s.acknowledged); }
  }

  /** To the flow a commit is the creation of a probe, or nothing. */
  lemma CommitLeads(a: Api, id: nat, ack: bool)
    requires ApiSound(a) && EnabledApi(a, Call(L.Commit(id, ack)))
    ensures FlowRuns.Leads(a.flow, CommitAll(a.flow, WritesOf(a.ledger.live[id].phase), a.ledger.live[id].start), false)
  {
    var ws, start := WritesOf(a.ledger.live[id].phase), a.ledger.live[id].start;
    CommitProduct(a.ledger, id, ack);
    if HoldsEvent(ws) {
      NextIsNew(a.ledger);
      CommitIsCreate(a.flow, ws, start);
      FlowRuns.LeadsStep(a.flow, Create(ws[0].probe, ws[0].value, ws[0].createdAt, ws[1].event.id, start), false);
    } else {
      CommitOthers(a.flow, ws, start);
      FlowRuns.LeadsNowhere(a.flow, false);
    }
  }

  lemma {:induction false} ApiRunLeads(a: Api, steps: seq<ApiStep>, a': Api)
    requires ApiSound(a) && RunApi(a, steps, a')
    ensures Sessions.Leads(a.ledger, a'.ledger) && FlowRuns.Leads(a.flow, a'.flow, false)
    decreases |steps|
  {
    if steps == [] {
      Sessions.LeadsNowhere(a.ledger);
      FlowRuns.LeadsNowhere(a.flow, false);
    } else {
      var a1 := ApplyApi(a, steps[0]);
      ApiStepLeads(a, steps[0]);
      ApiStepKeeps(a, steps[0]);
      ApiRunLeads(a1, steps[1..], a');
      Sessions.LeadsOn(a.ledger, a1.ledger, a'.ledger);
      FlowRuns.LeadsOn(a.flow, a1.flow, a'.flow, false);
    }
  }

  /** Every run of the whole, from any state it can reach, is a run of each machine: what the ledger and the
      flow guarantee of single states and of runs holds here. */
  lemma ApiRefines(a: Api, steps: seq<ApiStep>, a': Api)
    requires ReachableApi(a) && RunApi(a, steps, a')
    ensures Sessions.Leads(a.ledger, a'.ledger) && FlowRuns.Leads(a.flow, a'.flow, false)
    ensures LR.Reachable(a.ledger) && ReachableFlow(a.flow) && LR.Reachable(a'.ledger) && ReachableFlow(a'.flow)
  {
    ReachableApiSound(a);
    ApiRunLeads(a, steps, a');
    ApiRunKeeps(a, steps, a');
  }

  /** So redelivery never changes the first delivery time here either, whatever mutations, workers and
      crashes there are in between. */
  lemma FirstDeliveryStaysApi(a: Api, steps: seq<ApiStep>, a': Api)
    requires ReachableApi(a) && RunApi(a, steps, a')
    ensures ProbesStay(a.flow, a'.flow)
  {
    ApiRefines(a, steps, a');
    var fs :| FlowRuns.QuietRun(a.flow, fs, a'.flow, false);
    FirstDeliveryStays(a.flow, fs, a'.flow);
  }

  /** And the ledger goes on simulating the atomic map. */
  lemma SimulatesApi(a: Api, steps: seq<ApiStep>, a': Api) returns (es: seq<LR.Event>)
    requires ReachableApi(a) && RunApi(a, steps, a')
    ensures LR.SpecRun(a.ledger.records, es, a'.ledger.records, a.ledger.clock, a'.ledger.clock)
    ensures a.ledger.history <= a'.ledger.history
    ensures LR.Answers(es) == LR.AnswersOf(a'.ledger.history[|a.ledger.history|..])
  {
    ApiRefines(a, steps, a');
    LR.ReachableInv(a.ledger);
    var ls :| L.Run(a.ledger, ls, a'.ledger);
    es := LR.Simulates(a.ledger, ls, a'.ledger);
  }

  /** Over all committed writes, executions whose reply was lost included, probes and created events
      correspond one to one, and the tables hold exactly them. */
  lemma CommittedOneToOne(a: Api)
    requires ReachableApi(a)
    ensures Paired(a.flow, a.ledger.product) && Stored(a.flow, a.ledger.product)
    ensures a.ledger.product == L.Effects(a.ledger.history)
  {
    ReachableApiSound(a);
    LR.ReachableInv(a.ledger);
  }

  /** What a transaction has written is in no table until it commits: its probe's row and its event are
      there for nobody, and a rollback leaves nothing. */
  lemma UncommittedUnseen(a: Api, id: nat)
    requires ReachableApi(a) && id in a.ledger.live && HoldsProbe(WritesOf(a.ledger.live[id].phase))
    ensures var ws := WritesOf(a.ledger.live[id].phase);
            ws[0].probe !in a.flow.probes && (HoldsEvent(ws) ==> ws[1].event.id !in a.flow.sent)
    ensures EnabledApi(a, Call(L.Abort(id))) && ApplyApi(a, Call(L.Abort(id))).flow == a.flow
  {
    ReachableApiSound(a);
    var ws := WritesOf(a.ledger.live[id].phase);
    assert Fits(a.flow, ws);
    assert SentIsAppended(a.flow) by { ReachableFlowInv(a.flow); }
    if HoldsEvent(ws) { FreshNotSent(a.flow, ws[1].event.id); }
  }
}
