/**
 * The order in which `CodingFeedback` lets recorders begin is the order the planned graphs force: the first pass through
 * its references, the recheck not at all.
 */
module CodingOrder {
  import opened CodingSchema
  import opened CodingWorkflow
  import opened CodingFeedback
  import CodingRecheck
  import PlanGraph
  import StageGraph

  /** What `GateCalled` asks of the recorders before this one. */
  ghost predicate GateDue(plan: Plan, mode: Mode, s: State, i: nat) {
    i < |plan.changes| && (mode.Observe? && i > 0 ==> Returned(s, Gate(i - 1)))
  }

  /** What `SlowCalled` asks of the recorders before this one. */
  ghost predicate SlowDue(plan: Plan, mode: Mode, s: State, i: nat, c: Check) {
    i < |plan.changes| && c in Slows(plan, i) && (mode.Observe? ==> Returned(s, Gate(i)))
  }

  /** Beginning a recorder is being due, and otherwise a matter of its payload alone. */
  lemma BeginIsDue(plan: Plan, mode: Mode, s: State, r: Recorder, payload: Payload)
    requires Allowed(plan, mode, s, Step(r, Begin(payload)))
    ensures match r case Gate(i) => GateDue(plan, mode, s, i) case SlowCheck(i, c) => SlowDue(plan, mode, s, i, c)
  {
  }

  function StagesGraph(plan: Plan): PlanGraph.Node<StageGraph.Site> {
    StageGraph.Stages(CodingRecheck.WidthsOf(plan.changes), 0)
  }

  /** The recorders' state knows every gate record that the graph's execution has finished. */
  ghost predicate Mirrors(calls: PlanGraph.Calls<StageGraph.Site>, s: State) {
    forall i: nat :: PlanGraph.Finished(calls, StageGraph.RecordGate(i)) ==> Returned(s, Gate(i))
  }

  /** Whenever an execution of the first pass can start a record call, the recorder is due. */
  lemma StagesStartDue(plan: Plan, events: seq<PlanGraph.Event<StageGraph.Site>>, s: State, site: StageGraph.Site)
    requires PlanGraph.Execution(StagesGraph(plan), events) && Mirrors(PlanGraph.After(events), s)
    requires PlanGraph.Possible(StagesGraph(plan), PlanGraph.After(events), PlanGraph.Start(site))
    ensures site.RecordGate? ==> GateDue(plan, Observe, s, site.i)
    ensures site.RecordSlow? ==> exists c :: SlowDue(plan, Observe, s, site.i, c) && c.id == site.id
  {
    var ws, calls := CodingRecheck.WidthsOf(plan.changes), PlanGraph.After(events);
    StageGraph.StagesNeed(ws, 0, calls, [], site);
    PlanGraph.EnabledIsSite(StagesGraph(plan), calls, [], site);
    StageGraph.StagesSites(ws, 0, site);
    if site.RecordGate? {
      StageGraph.NeedsHeld(ws, events, StageGraph.FastGate(site.i));
      StageGraph.NeedsHeld(ws, events, StageGraph.Implement(site.i));
    }
    if site.RecordSlow? {
      var c := SlowNamed(plan, site.i, site.id);
      assert SlowDue(plan, Observe, s, site.i, c);
    }
  }

  /** An execution of a recheck starts only planned records; that is all the recheck's recorders wait for. */
  lemma RecheckStartsDue(
    plan: Plan, refreshed: seq<ValidatedChange>, events: seq<PlanGraph.Event<StageGraph.Site>>, s: State,
    site: StageGraph.Site)
    requires |refreshed| == |plan.changes|
    requires PlanGraph.Execution(CodingRecheck.RecheckGraph(plan, refreshed), events) && site in PlanGraph.After(events)
    ensures site.RecordGate? ==> GateDue(plan, Recheck(refreshed), s, site.i)
    ensures site.RecordSlow? ==> exists c :: SlowDue(plan, Recheck(refreshed), s, site.i, c) && c.id == site.id
  {
    PlanGraph.StartedIsSite(CodingRecheck.RecheckGraph(plan, refreshed), events, site);
    StageGraph.RecheckSites(CodingRecheck.WidthsOf(plan.changes), CodingRecheck.SavedIn(plan, refreshed), 0, site);
    if site.RecordSlow? {
      var c := SlowNamed(plan, site.i, site.id);
      assert SlowDue(plan, Recheck(refreshed), s, site.i, c);
    }
  }

  /** Conversely a due gate of a recheck can be recorded as soon as its own fast gate is through, whatever the others did. */
  lemma RecheckDueStarts(
    plan: Plan, refreshed: seq<ValidatedChange>, calls: PlanGraph.Calls<StageGraph.Site>, s: State, i: nat)
    requires |refreshed| == |plan.changes| && GateDue(plan, Recheck(refreshed), s, i)
    requires StageGraph.RecordGate(i) !in calls && PlanGraph.Finished(calls, StageGraph.FastGate(i))
    requires forall id :: id in CodingRecheck.WidthsOf(plan.changes)[i].fast && (i, id) !in CodingRecheck.SavedIn(plan, refreshed)
               ==> PlanGraph.Finished(calls, StageGraph.RunFast(i, id))
    ensures PlanGraph.Possible(
              CodingRecheck.RecheckGraph(plan, refreshed), calls, PlanGraph.Start(StageGraph.RecordGate(i)))
  {
    StageGraph.RecheckGatesIndependent(
      CodingRecheck.WidthsOf(plan.changes), CodingRecheck.SavedIn(plan, refreshed), 0, calls, [], i);
  }

  lemma SlowNamed(plan: Plan, i: nat, id: string) returns (c: Check)
    requires i < |plan.changes| && id in CheckIds(OfTier(plan.changes[i].checks, Slow))
    ensures c in Slows(plan, i) && c.id == id
  {
    var k :| 0 <= k < |Slows(plan, i)| && CheckIds(Slows(plan, i))[k] == id;
    c := Slows(plan, i)[k];
  }
}
