/** Histories of the shared tables, as one session sees them while others act. */
module FlowRuns {
  import OM = OutboxMachine
  import opened OutboxMachine
  import opened OutboxProgress
  import opened OutboxStore
  import opened ReferenceFlow

  /** A step that neither creates nor revives work. */
  predicate QuietStep(step: FlowStep) {
    match step
    case Create(_, _, _, _, _) => false
    case Handle(_, _, _) => true
    case Outbox(s) => AddsNoWork(s)
  }

  ghost predicate QuietRun(f: Flow, steps: seq<FlowStep>, f': Flow, quiet: bool) {
    RunFlow(f, steps, f') && (quiet ==> forall i :: 0 <= i < |steps| ==> QuietStep(steps[i]))
  }

  /** Some run leads from one state to the other, adding no work when it is quiet. */
  ghost predicate Leads(f: Flow, f': Flow, quiet: bool) {
    exists steps :: QuietRun(f, steps, f', quiet)
  }

  lemma LeadsNowhere(f: Flow, quiet: bool)
    ensures Leads(f, f, quiet)
  {
    assert QuietRun(f, [], f, quiet);
  }

  lemma LeadsStep(f: Flow, step: FlowStep, quiet: bool)
    requires EnabledFlow(f, step) && (quiet ==> QuietStep(step))
    ensures Leads(f, ApplyFlow(f, step), quiet)
  {
    assert RunFlow(ApplyFlow(f, step), [step][1..], ApplyFlow(f, step));
    assert QuietRun(f, [step], ApplyFlow(f, step), quiet);
  }

  lemma {:induction false} RunAppend(f: Flow, a: seq<FlowStep>, f1: Flow, b: seq<FlowStep>, f2: Flow)
    requires RunFlow(f, a, f1) && RunFlow(f1, b, f2)
    ensures RunFlow(f, a + b, f2)
    decreases |a|
  {
    if a == [] {
      assert a + b == b;
    } else {
      assert (a + b)[1..] == a[1..] + b;
      RunAppend(ApplyFlow(f, a[0]), a[1..], f1, b, f2);
    }
  }

  lemma LeadsOn(f: Flow, f1: Flow, f2: Flow, quiet: bool)
    requires Leads(f, f1, quiet) && Leads(f1, f2, quiet)
    ensures Leads(f, f2, quiet)
  {
    var a :| QuietRun(f, a, f1, quiet);
    var b :| QuietRun(f1, b, f2, quiet);
    RunAppend(f, a, f1, b, f2);
    assert QuietRun(f, a + b, f2, quiet);
  }

  /** A run that leads somewhere starting from a reachable state ends in one. */
  lemma LeadsReachable(f: Flow, f': Flow)
    requires ReachableFlow(f) && Leads(f, f', false)
    ensures ReachableFlow(f')
  {
    var f0, a :| InitialFlow(f0) && RunFlow(f0, a, f);
    var b :| QuietRun(f, b, f', false);
    RunAppend(f0, a, f, b, f');
  }

  // ----- what never changes back -----

  /** Time passes, the log and the confirmed claims grow, and sent events stay what they were. */
  ghost predicate FlowLater(f: Flow, f': Flow) {
    && Later(f.outbox, f'.outbox) && f.confirmed <= f'.confirmed
    && forall id :: id in f.sent ==> id in f'.sent && f'.sent[id] == f.sent[id]
  }

  lemma FlowStepLater(f: Flow, step: FlowStep)
    requires SentIsAppended(f) && EnabledFlow(f, step)
    ensures FlowLater(f, ApplyFlow(f, step))
  {
    match step
    case Create(_, _, _, eventId, _) => FreshNotSent(f, eventId);
    case Handle(_, _, _) =>
    case Outbox(s) =>
      StepLater(f.outbox, s);
      if s.Append? { FreshNotSent(f, s.event.id); }
  }

  // ----- the outbox alone -----

  /** Seen from the outbox, a step of the flow is a step of its machine, or none. */
  lemma StepProjects(f: Flow, step: FlowStep) returns (s: seq<OM.Step>)
    requires EnabledFlow(f, step)
    ensures |s| <= 1 && Run(f.outbox, s, ApplyFlow(f, step).outbox)
    ensures QuietStep(step) ==> forall i :: 0 <= i < |s| ==> AddsNoWork(s[i])
  {
    match step
    case Create(id, value, receivedAt, eventId, now) =>
      s := if InsertAccepted(f, id, value) then [Append(CreatedEvent(f, id, value, receivedAt, eventId), now)] else [];
      assert s != [] ==> s[1..] == [];
    case Handle(_, _, _) => s := [];
    case Outbox(t) =>
      s := [t];
      assert s[1..] == [];
  }

  lemma OutboxRunAppend(s: OM.State, a: seq<OM.Step>, s1: OM.State, b: seq<OM.Step>, s2: OM.State)
    requires |a| <= 1 && Run(s, a, s1) && Run(s1, b, s2)
    ensures Run(s, a + b, s2)
  {
    if a == [] {
      assert a + b == b;
    } else {
      assert a[1..] == [] && (a + b)[1..] == b;
    }
  }

  lemma {:induction false} RunProjects(f: Flow, steps: seq<FlowStep>, f': Flow) returns (s: seq<OM.Step>)
    requires RunFlow(f, steps, f')
    ensures Run(f.outbox, s, f'.outbox)
    ensures (forall i :: 0 <= i < |steps| ==> QuietStep(steps[i])) ==> forall i :: 0 <= i < |s| ==> AddsNoWork(s[i])
    decreases |steps|
  {
    if steps == [] {
      s := [];
    } else {
      var first := StepProjects(f, steps[0]);
      var rest := RunProjects(ApplyFlow(f, steps[0]), steps[1..], f');
      OutboxRunAppend(f.outbox, first, ApplyFlow(f, steps[0]).outbox, rest, f'.outbox);
      s := first + rest;
    }
  }

  /** So what quiet runs promise of the outbox holds here: they add no potential. */
  lemma QuietPotential(f: Flow, f': Flow, n: nat)
    requires ReachableFlow(f) && IdsBelow(f.outbox, n) && Leads(f, f', true)
    ensures IdsBelow(f'.outbox, n) && Potential(f'.outbox, n) <= Potential(f.outbox, n)
    ensures Settlements(f'.outbox.log) > Settlements(f.outbox.log) ==> Potential(f'.outbox, n) < Potential(f.outbox, n)
  {
    ReachableFlowInv(f);
    var steps :| QuietRun(f, steps, f', true);
    var s := RunProjects(f, steps, f');
    SettlementsBounded(f.outbox, s, f'.outbox, n);
  }

  /** A quiet run that settles something is a settling round. */
  lemma QuietRound(f: Flow, f': Flow)
    requires Leads(f, f', true) && (HasPending(f.outbox) ==> Settlements(f'.outbox.log) > Settlements(f.outbox.log))
    ensures SettlingRound(f.outbox, f'.outbox)
  {
    var steps :| QuietRun(f, steps, f', true);
    var s := RunProjects(f, steps, f');
  }
}
