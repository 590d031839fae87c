/** `repairChecks` of flows/coding/correction.ts as a graph over real receipts: which checks a repair runs again. */
module CodingRecheck {
  import opened Wrappers
  import opened CodingSchema
  import opened CodingWorkflow
  import opened CodingCorrection
  import PlanGraph
  import StageGraph

  function WidthsOf(changes: seq<Change>): (ws: seq<StageGraph.Width>)
    ensures |ws| == |changes|
    ensures forall i :: 0 <= i < |ws| ==>
      ws[i] == StageGraph.Width(CheckIds(OfTier(changes[i].checks, Fast)), CheckIds(OfTier(changes[i].checks, Slow)))
  {
    seq(|changes|, i requires 0 <= i < |changes| =>
      StageGraph.Width(CheckIds(OfTier(changes[i].checks, Fast)), CheckIds(OfTier(changes[i].checks, Slow))))
  }

  /** Where the graph has a saved receipt instead of a call. */
  ghost function SavedIn(plan: Plan, groups: seq<ValidatedChange>): set<(nat, string)>
    requires |groups| == |plan.changes|
  {
    set i: nat, c | i < |groups| && c in plan.changes[i].checks && RecheckNode(groups[i], c).Saved? :: (i, c.id)
  }

  ghost function RecheckGraph(plan: Plan, groups: seq<ValidatedChange>): PlanGraph.Node<StageGraph.Site>
    requires |groups| == |plan.changes|
  {
    StageGraph.Recheck(WidthsOf(plan.changes), SavedIn(plan, groups), 0)
  }

  /** The call that runs a fast or slow check. */
  function CallOf(i: nat, c: Check): StageGraph.Site {
    if c.tier == Fast then StageGraph.RunFast(i, c.id) else StageGraph.RunSlow(i, c.id)
  }

  lemma SavedExactly(plan: Plan, groups: seq<ValidatedChange>, i: nat, c: Check)
    requires |groups| == |plan.changes| && i < |groups|
    requires Distinct(CheckIds(plan.changes[i].checks)) && c in plan.changes[i].checks
    ensures (i, c.id) in SavedIn(plan, groups) <==> RecheckNode(groups[i], c).Saved?
  {
    forall d | d in plan.changes[i].checks && d.id == c.id ensures d == c {
      OneCheck(plan.changes[i].checks, c, d);
    }
  }

  lemma OneCheck(checks: seq<Check>, c: Check, d: Check)
    requires Distinct(CheckIds(checks)) && c in checks && d in checks && c.id == d.id
    ensures c == d
  {
    var a, b :| 0 <= a < |checks| && checks[a] == c && 0 <= b < |checks| && checks[b] == d;
    if a < b { DistinctAt(CheckIds(checks), a, b); }
    if b < a { DistinctAt(CheckIds(checks), b, a); }
  }

  lemma TierIds(checks: seq<Check>, tier: Tier, c: Check)
    requires c in checks && c.tier == tier
    ensures c.id in CheckIds(OfTier(checks, tier))
  {
    InTier(checks, tier, c);
    var k :| 0 <= k < |OfTier(checks, tier)| && OfTier(checks, tier)[k] == c;
    assert CheckIds(OfTier(checks, tier))[k] == c.id;
  }

  /** The graph calls a planned check exactly when its node is not a saved receipt. */
  lemma GraphCallsUnsaved(plan: Plan, groups: seq<ValidatedChange>, i: nat, c: Check)
    requires |groups| == |plan.changes| && i < |groups|
    requires Distinct(CheckIds(plan.changes[i].checks)) && c in plan.changes[i].checks && c.tier != Delivery
    ensures CallOf(i, c) in PlanGraph.Sites(RecheckGraph(plan, groups)) <==> RecheckNode(groups[i], c).RunCheck?
  {
    StageGraph.RecheckSites(WidthsOf(plan.changes), SavedIn(plan, groups), 0, CallOf(i, c));
    SavedExactly(plan, groups, i, c);
    TierIds(plan.changes[i].checks, c.tier, c);
  }

  /**
   * After a repair, the calls of the recheck graph are exactly the planned checks for which the previous result holds
   * no receipt over the same exact input.
   */
  lemma RecheckCallsExactlyTheMissing(input: Input, groups: seq<ValidatedChange>, i: nat, c: Check)
    requires Restackable(input) && IsReconstruction(input, groups) && i < |groups| == |input.plan.changes|
    requires Progression(input.plan.base, input.previous.changes)
    requires Exact(input.plan.changes[i], input.previous.changes[i])
    requires Distinct(CheckIds(input.plan.changes[i].checks)) && c in input.plan.changes[i].checks && c.tier != Delivery
    ensures CallOf(i, c) in PlanGraph.Sites(RecheckGraph(input.plan, groups)) <==>
            !exists r :: r in input.previous.changes[i].receipts && ReceiptMatches(groups[i].implementation, c, r)
  {
    RecheckRunsExactlyTheMissing(input, groups, i, c);
    GraphCallsUnsaved(input.plan, groups, i, c);
  }

  /** And nothing else is ever called to run a check: in every execution, each started check is a planned, missing one. */
  lemma OnlyMissingStart(
    plan: Plan, groups: seq<ValidatedChange>, events: seq<PlanGraph.Event<StageGraph.Site>>, site: StageGraph.Site)
    requires |groups| == |plan.changes| && forall i :: 0 <= i < |groups| ==> Distinct(CheckIds(plan.changes[i].checks))
    requires PlanGraph.Execution(RecheckGraph(plan, groups), events) && site in PlanGraph.After(events)
    requires site.RunFast? || site.RunSlow?
    ensures site.i < |groups|
    ensures exists c :: c in plan.changes[site.i].checks && CallOf(site.i, c) == site && RecheckNode(groups[site.i], c).RunCheck?
  {
    PlanGraph.StartedIsSite(RecheckGraph(plan, groups), events, site);
    StageGraph.RecheckSites(WidthsOf(plan.changes), SavedIn(plan, groups), 0, site);
    var tier := if site.RunFast? then Fast else Slow;
    var c := NamedCheck(plan.changes[site.i].checks, tier, site.id);
    SavedExactly(plan, groups, site.i, c);
    assert CallOf(site.i, c) == site;
  }

  lemma NamedCheck(checks: seq<Check>, tier: Tier, id: string) returns (c: Check)
    requires id in CheckIds(OfTier(checks, tier))
    ensures c in checks && c.tier == tier && c.id == id
  {
    var k :| 0 <= k < |OfTier(checks, tier)| && CheckIds(OfTier(checks, tier))[k] == id;
    c := OfTier(checks, tier)[k];
    InTier(checks, tier, c);
  }
}
