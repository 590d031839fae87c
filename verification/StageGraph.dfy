/**
 * The graphs `stages` (flows/coding/feedback.ts) and `repairChecks` (flows/coding/correction.ts) plan, reduced to their
 * calls and references. The first orders its gates; the second does not.
 */
module StageGraph {
  import opened PlanGraph

  /** The check IDs one planned Change contributes. */
  datatype Width = Width(fast: seq<string>, slow: seq<string>)

  datatype Site =
    | Implement(i: nat) | RunFast(i: nat, id: string) | FastGate(i: nat) | RecordGate(i: nat)
    | RunSlow(i: nat, id: string) | RecordSlow(i: nat, id: string)

  function FastCalls(i: nat, ids: seq<string>): (ns: seq<Node<Site>>)
    ensures |ns| == |ids| && forall k :: 0 <= k < |ns| ==> ns[k] == Call(RunFast(i, ids[k]), [0])
  {
    seq(|ids|, k requires 0 <= k < |ids| => Call(RunFast(i, ids[k]), [0]))
  }

  function SlowCalls(i: nat, ids: seq<string>): (ns: seq<Node<Site>>)
    ensures |ns| == |ids|
    ensures forall k :: 0 <= k < |ns| ==> ns[k] == Bind(Call(RunSlow(i, ids[k]), [0]), Call(RecordSlow(i, ids[k]), [0, 1]))
  {
    seq(|ids|, k requires 0 <= k < |ids| => Bind(Call(RunSlow(i, ids[k]), [0]), Call(RecordSlow(i, ids[k]), [0, 1])))
  }

  /** Fast checks, then the gate, then the record of the gated group. */
  function Gating(i: nat, fast: seq<Node<Site>>, refs: seq<nat>): Node<Site> {
    Bind(Bind(All(fast), Call(FastGate(i), refs)), Call(RecordGate(i), [0]))
  }

  /** Stage `i` of the first pass; inside, reference 0 is the group recorded by the gate before it. */
  function Stages(ws: seq<Width>, i: nat): Node<Site>
    requires i <= |ws|
    decreases |ws| - i
  {
    if i == |ws| then Succeed(List([]))
    else
      Bind(Call(Implement(i), if i == 0 then [] else [0]),
        Bind(Gating(i, FastCalls(i, ws[i].fast), if i == 0 then [0, 1] else [0, 1, 2]),
          Map(Wrap, All([Ref(0), All(SlowCalls(i, ws[i].slow)), Stages(ws, i + 1)]))))
  }

  /** What must have finished before a call of the first pass may start. */
  predicate Needs(ws: seq<Width>, calls: Calls<Site>, site: Site) {
    match site
    case Implement(k) => k > 0 ==> Finished(calls, RecordGate(k - 1))
    case RunFast(k, _) => Finished(calls, Implement(k))
    case FastGate(k) =>
      Finished(calls, Implement(k)) && k < |ws| && forall id :: id in ws[k].fast ==> Finished(calls, RunFast(k, id))
    case RecordGate(k) => Finished(calls, FastGate(k))
    case RunSlow(k, _) => Finished(calls, RecordGate(k))
    case RecordSlow(k, _) => Finished(calls, RecordGate(k)) && Finished(calls, RunSlow(k, site.id))
  }

  /** A settled gating node means its record call finished. */
  lemma GatingSettles(i: nat, fast: seq<Node<Site>>, refs: seq<nat>, calls: Calls<Site>, env: Env)
    ensures Eval(Gating(i, fast, refs), calls, env).Some? ==> Finished(calls, RecordGate(i))
  {
    var inner := Bind(All(fast), Call(FastGate(i), refs));
    var v := Eval(inner, calls, env);
    assert v.Some? ==> Eval(Gating(i, fast, refs), calls, env) == Eval(Call(RecordGate(i), [0]), calls, [v] + env);
  }

  lemma InnerSettles(i: nat, fast: seq<Node<Site>>, refs: seq<nat>, calls: Calls<Site>, env: Env)
    ensures Eval(Bind(All(fast), Call(FastGate(i), refs)), calls, env).Some? ==> Finished(calls, FastGate(i))
  {
    var v := Eval(All(fast), calls, env);
    assert v.Some? ==> Eval(Bind(All(fast), Call(FastGate(i), refs)), calls, env) == Eval(Call(FastGate(i), refs), calls, [v] + env);
  }

  lemma {:induction false} FastSettled(ids: seq<string>, i: nat, nodes: seq<Node<Site>>, calls: Calls<Site>, env: Env)
    requires |nodes| == |ids| && forall k :: 0 <= k < |ids| ==> nodes[k] == Call(RunFast(i, ids[k]), [0])
    requires EvalAll(nodes, calls, env).Some?
    ensures forall id :: id in ids ==> Finished(calls, RunFast(i, id))
    decreases |ids|
  {
    if ids != [] {
      var n := |ids| - 1;
      assert ids == ids[..n] + [ids[n]];
      FastSettled(ids[..n], i, nodes[..n], calls, env);
      assert Eval(nodes[n], calls, env).Some?;
    }
  }

  lemma GatingNeeds(ws: seq<Width>, i: nat, refs: seq<nat>, calls: Calls<Site>, env: Env, site: Site)
    requires i < |ws| && Enabled(Gating(i, FastCalls(i, ws[i].fast), refs), calls, env, site)
    requires |env| > 0 && 0 in refs && 1 in refs
    requires env[0].Some? ==> Finished(calls, Implement(i))
    ensures Needs(ws, calls, site)
  {
    var fast := FastCalls(i, ws[i].fast);
    var inner := Bind(All(fast), Call(FastGate(i), refs));
    InnerSettles(i, fast, refs, calls, env);
    if Enabled(inner, calls, env, site) {
      if Enabled(All(fast), calls, env, site) {
        var m :| m in fast && Enabled(m, calls, env, site);
        assert 0 in m.refs && At(env, 0) == env[0];
      } else {
        FastGateNeeds(ws, i, refs, calls, env, site);
      }
    } else {
      var outer := [Eval(inner, calls, env)] + env;
      assert Enabled(Call(RecordGate(i), [0]), calls, outer, site);
      assert 0 in [0] && At(outer, 0) == Eval(inner, calls, env);
    }
  }

  lemma FastGateNeeds(ws: seq<Width>, i: nat, refs: seq<nat>, calls: Calls<Site>, env: Env, site: Site)
    requires i < |ws| && |env| > 0 && 0 in refs && 1 in refs && (env[0].Some? ==> Finished(calls, Implement(i)))
    requires var joined := Eval(All(FastCalls(i, ws[i].fast)), calls, env);
      Enabled(Call(FastGate(i), refs), calls, [joined] + env, site)
    ensures Needs(ws, calls, site)
  {
    var fast := FastCalls(i, ws[i].fast);
    var inside := [Eval(All(fast), calls, env)] + env;
    assert At(inside, 0) == Eval(All(fast), calls, env) && At(inside, 1) == env[0];
    FastSettled(ws[i].fast, i, fast, calls, env);
  }

  lemma SlowNeeds(ws: seq<Width>, i: nat, calls: Calls<Site>, env: Env, site: Site)
    requires i < |ws| && Enabled(All(SlowCalls(i, ws[i].slow)), calls, env, site) && |env| > 0
    requires env[0].Some? ==> Finished(calls, RecordGate(i))
    ensures Needs(ws, calls, site)
  {
    var m :| m in SlowCalls(i, ws[i].slow) && Enabled(m, calls, env, site);
    assert 0 in [0] && At(env, 0) == env[0];
    if !Enabled(m.first, calls, env, site) {
      var inner := [Eval(m.first, calls, env)] + env;
      assert Enabled(m.body, calls, inner, site);
      assert 0 in m.body.refs && 1 in m.body.refs && At(inner, 0) == inner[0] && At(inner, 1) == env[0];
    }
  }

  /** Nothing in the first pass starts before what it needs, whatever has happened so far. */
  lemma {:induction false} StagesNeed(ws: seq<Width>, i: nat, calls: Calls<Site>, env: Env, site: Site)
    requires i <= |ws| && Enabled(Stages(ws, i), calls, env, site)
    requires i > 0 ==> |env| > 0 && (env[0].Some? ==> Finished(calls, RecordGate(i - 1)))
    ensures Needs(ws, calls, site)
    decreases |ws| - i
  {
    var implement := Call(Implement(i), if i == 0 then [] else [0]);
    if Enabled(implement, calls, env, site) {
      assert i > 0 ==> 0 in implement.refs && At(env, 0) == env[0];
    } else {
      var env1 := [Eval(implement, calls, env)] + env;
      var refs := if i == 0 then [0, 1] else [0, 1, 2];
      var gating := Gating(i, FastCalls(i, ws[i].fast), refs);
      var env2 := [Eval(gating, calls, env1)] + env1;
      GatingSettles(i, FastCalls(i, ws[i].fast), refs, calls, env1);
      var slow, next := All(SlowCalls(i, ws[i].slow)), Stages(ws, i + 1);
      assert Enabled(gating, calls, env1, site) || Enabled(Map(Wrap, All([Ref(0), slow, next])), calls, env2, site);
      if Enabled(gating, calls, env1, site) {
        assert 0 in refs && 1 in refs;
        GatingNeeds(ws, i, refs, calls, env1, site);
      } else {
        OneOf(slow, next, calls, env2, site);
        if Enabled(slow, calls, env2, site) {
          SlowNeeds(ws, i, calls, env2, site);
        } else {
          StagesNeed(ws, i + 1, calls, env2, site);
        }
      }
    }
  }

  lemma OneOf(slow: Node<Site>, next: Node<Site>, calls: Calls<Site>, env: Env, site: Site)
    requires Enabled(Map(Wrap, All([Ref(0), slow, next])), calls, env, site)
    ensures Enabled(slow, calls, env, site) || Enabled(next, calls, env, site)
  {
    var members := [Ref(0), slow, next];
    assert Enabled(All(members), calls, env, site);
    var m :| m in members && Enabled(m, calls, env, site);
  }

  /** In every execution of the first pass, whatever has started had what it needs finished. */
  lemma {:induction false} NeedsHeld(ws: seq<Width>, events: seq<Event<Site>>, site: Site)
    requires Execution(Stages(ws, 0), events) && site in After(events)
    ensures Needs(ws, After(events), site)
  {
    var init, event := events[..|events| - 1], events[|events| - 1];
    HappenExtends(Stages(ws, 0), After(init), event);
    if site in After(init) {
      NeedsHeld(ws, init, site);
    } else {
      StagesNeed(ws, 0, After(init), [], site);
    }
  }

  /** So the gates are recorded in plan order, and slow records of a Change follow its own gate. */
  lemma {:induction false} GatesInOrder(ws: seq<Width>, events: seq<Event<Site>>, j: nat, k: nat)
    requires Execution(Stages(ws, 0), events) && j < k
    requires RecordGate(k) in After(events)
    ensures Finished(After(events), RecordGate(j))
    decreases k
  {
    NeedsHeld(ws, events, RecordGate(k));
    NeedsHeld(ws, events, FastGate(k));
    NeedsHeld(ws, events, Implement(k));
    if j < k - 1 { GatesInOrder(ws, events, j, k - 1); }
  }

  lemma SlowAfterGate(ws: seq<Width>, events: seq<Event<Site>>, k: nat, id: string)
    requires Execution(Stages(ws, 0), events) && RecordSlow(k, id) in After(events)
    ensures Finished(After(events), RecordGate(k)) && Finished(After(events), RunSlow(k, id))
  {
    NeedsHeld(ws, events, RecordSlow(k, id));
  }

  /** The calls of the first pass from Change `i` on: each planned call of each of them. */
  predicate Staged(ws: seq<Width>, i: nat, site: Site) {
    match site
    case RunFast(k, id) => i <= k < |ws| && id in ws[k].fast
    case RunSlow(k, id) => i <= k < |ws| && id in ws[k].slow
    case RecordSlow(k, id) => i <= k < |ws| && id in ws[k].slow
    case _ => i <= site.i < |ws|
  }

  lemma {:induction false} StagesSites(ws: seq<Width>, i: nat, site: Site)
    requires i <= |ws|
    ensures site in Sites(Stages(ws, i)) <==> Staged(ws, i, site)
    decreases |ws| - i
  {
    if i < |ws| {
      StagesSites(ws, i + 1, site);
      FastCallSites(i, ws[i].fast, FastCalls(i, ws[i].fast), site);
      SlowCallSites(i, ws[i].slow, SlowCalls(i, ws[i].slow), site);
      StagesUnfold(ws, i, site);
      StagedSplits(ws, i, site);
    }
  }

  lemma StagedSplits(ws: seq<Width>, i: nat, site: Site)
    requires i < |ws|
    ensures Staged(ws, i, site) <==>
      || site == Implement(i) || (site.RunFast? && site.i == i && site.id in ws[i].fast) || site == FastGate(i)
      || site == RecordGate(i) || ((site.RunSlow? || site.RecordSlow?) && site.i == i && site.id in ws[i].slow)
      || Staged(ws, i + 1, site)
  {
  }

  lemma StagesUnfold(ws: seq<Width>, i: nat, site: Site)
    requires i < |ws|
    ensures site in Sites(Stages(ws, i)) <==>
      || site == Implement(i) || site in SitesAll(FastCalls(i, ws[i].fast)) || site == FastGate(i) || site == RecordGate(i)
      || site in SitesAll(SlowCalls(i, ws[i].slow)) || site in Sites(Stages(ws, i + 1))
  {
    var fast, refs := FastCalls(i, ws[i].fast), if i == 0 then [0, 1] else [0, 1, 2];
    var slow, next := All(SlowCalls(i, ws[i].slow)), Stages(ws, i + 1);
    var gating, rest := Gating(i, fast, refs), Map(Wrap, All([Ref(0), slow, next]));
    GatingSites(i, fast, refs);
    TripleSites(slow, next);
    BindSites(gating, rest, site);
    BindSites(Call(Implement(i), if i == 0 then [] else [0]), Bind(gating, rest), site);
  }

  lemma {:induction false} FastCallSites(i: nat, ids: seq<string>, nodes: seq<Node<Site>>, site: Site)
    requires |nodes| == |ids| && forall k :: 0 <= k < |ids| ==> nodes[k] == Call(RunFast(i, ids[k]), [0])
    ensures site in SitesAll(nodes) <==> site.RunFast? && site.i == i && site.id in ids
    decreases |ids|
  {
    if ids != [] {
      var n := |ids| - 1;
      assert ids == ids[..n] + [ids[n]];
      FastCallSites(i, ids[..n], nodes[..n], site);
    }
  }

  lemma {:induction false} SlowCallSites(i: nat, ids: seq<string>, nodes: seq<Node<Site>>, site: Site)
    requires |nodes| == |ids|
    requires forall k :: 0 <= k < |ids| ==>
               nodes[k] == Bind(Call(RunSlow(i, ids[k]), [0]), Call(RecordSlow(i, ids[k]), [0, 1]))
    ensures site in SitesAll(nodes) <==> (site.RunSlow? || site.RecordSlow?) && site.i == i && site.id in ids
    decreases |ids|
  {
    if ids != [] {
      var n := |ids| - 1;
      assert ids == ids[..n] + [ids[n]];
      SlowCallSites(i, ids[..n], nodes[..n], site);
      assert Sites(nodes[n]) == [RunSlow(i, ids[n])] + [RecordSlow(i, ids[n])];
    }
  }

  // ---- the recheck -------------------------------------------------------------------------------

  /** Saved fast receipts are constants; the others run without a reference to anything earlier. */
  function RecheckFast(i: nat, ids: seq<string>, saved: set<(nat, string)>): (ns: seq<Node<Site>>)
    ensures |ns| == |ids|
    ensures forall k :: 0 <= k < |ns| ==>
              ns[k] == if (i, ids[k]) in saved then Succeed(List([])) else Call(RunFast(i, ids[k]), [])
  {
    seq(|ids|, k requires 0 <= k < |ids| =>
      if (i, ids[k]) in saved then Succeed(List([])) else Call(RunFast(i, ids[k]), []))
  }

  function RecheckSlow(i: nat, ids: seq<string>, saved: set<(nat, string)>): (ns: seq<Node<Site>>)
    ensures |ns| == |ids|
    ensures forall k :: 0 <= k < |ns| ==>
              ns[k] == Bind(if (i, ids[k]) in saved then Succeed(List([])) else Call(RunSlow(i, ids[k]), []),
                            Call(RecordSlow(i, ids[k]), [0]))
  {
    seq(|ids|, k requires 0 <= k < |ids| =>
      Bind(if (i, ids[k]) in saved then Succeed(List([])) else Call(RunSlow(i, ids[k]), []), Call(RecordSlow(i, ids[k]), [0])))
  }

  function Recheck(ws: seq<Width>, saved: set<(nat, string)>, i: nat): Node<Site>
    requires i <= |ws|
    decreases |ws| - i
  {
    if i == |ws| then Succeed(List([]))
    else
      Bind(Gating(i, RecheckFast(i, ws[i].fast, saved), [0]),
        Map(Wrap, All([Ref(0), All(RecheckSlow(i, ws[i].slow, saved)), Recheck(ws, saved, i + 1)])))
  }

  /** A gate of the recheck becomes recordable as soon as its own fast gate finished, whatever the other gates did. */
  lemma {:induction false} RecheckGatesIndependent(
    ws: seq<Width>, saved: set<(nat, string)>, i: nat, calls: Calls<Site>, env: Env, k: nat)
    requires i <= k < |ws| && RecordGate(k) !in calls && Finished(calls, FastGate(k))
    requires forall id :: id in ws[k].fast && (k, id) !in saved ==> Finished(calls, RunFast(k, id))
    ensures Enabled(Recheck(ws, saved, i), calls, env, RecordGate(k))
    decreases |ws| - i
  {
    var fast := RecheckFast(i, ws[i].fast, saved);
    var gating := Gating(i, fast, [0]);
    if i == k {
      RecheckFastSettles(ws[i].fast, i, fast, saved, calls, env);
      var all := Eval(All(fast), calls, env);
      var inner := Bind(All(fast), Call(FastGate(i), [0]));
      assert Eval(inner, calls, env) == Eval(Call(FastGate(i), [0]), calls, [all] + env);
      assert At([Eval(inner, calls, env)] + env, 0).Some?;
      assert Enabled(Call(RecordGate(i), [0]), calls, [Eval(inner, calls, env)] + env, RecordGate(k));
      assert Enabled(gating, calls, env, RecordGate(k));
    } else {
      var env1 := [Eval(gating, calls, env)] + env;
      RecheckGatesIndependent(ws, saved, i + 1, calls, env1, k);
      var rest := [Ref(0), All(RecheckSlow(i, ws[i].slow, saved)), Recheck(ws, saved, i + 1)];
      assert rest[2] in rest;
      assert Enabled(All(rest), calls, env1, RecordGate(k));
      assert Enabled(Map(Wrap, All(rest)), calls, env1, RecordGate(k));
    }
  }

  lemma {:induction false} RecheckFastSettles(
    ids: seq<string>, i: nat, nodes: seq<Node<Site>>, saved: set<(nat, string)>, calls: Calls<Site>, env: Env)
    requires |nodes| == |ids|
    requires forall k :: 0 <= k < |ids| ==>
               nodes[k] == if (i, ids[k]) in saved then Succeed(List([])) else Call(RunFast(i, ids[k]), [])
    requires forall id :: id in ids && (i, id) !in saved ==> Finished(calls, RunFast(i, id))
    ensures EvalAll(nodes, calls, env).Some?
    decreases |ids|
  {
    if ids != [] {
      var n := |ids| - 1;
      assert ids[n] in ids && forall id :: id in ids[..n] ==> id in ids;
      RecheckFastSettles(ids[..n], i, nodes[..n], saved, calls, env);
      assert Eval(nodes[n], calls, env).Some?;
    }
  }

  /** An execution of Change `k` alone: each of its unsaved fast checks among the first `n` ran, and nothing else did. */
  lemma {:induction false} RunMissing(ws: seq<Width>, saved: set<(nat, string)>, k: nat, n: nat)
    returns (events: seq<Event<Site>>)
    requires k < |ws| && n <= |ws[k].fast|
    ensures Execution(Recheck(ws, saved, 0), events)
    ensures forall site :: site in After(events) ==> site.RunFast? && site.i == k && After(events)[site].Done?
    ensures forall id :: id in ws[k].fast[..n] && (k, id) !in saved ==> RunFast(k, id) in After(events)
  {
    if n == 0 {
      return [];
    }
    var graph, id := Recheck(ws, saved, 0), ws[k].fast[n - 1];
    assert ws[k].fast[..n] == ws[k].fast[..n - 1] + [id];
    events := RunMissing(ws, saved, k, n - 1);
    if (k, id) !in saved && RunFast(k, id) !in After(events) {
      RunFastIndependent(ws, saved, 0, After(events), [], k, id);
      events := Extend(graph, events, Start(RunFast(k, id)));
      events := Extend(graph, events, Finish(RunFast(k, id), ""));
    }
  }

  /** Whatever is saved: the last gate can be recorded in an execution that never touched any other gate. */
  lemma LastGateFirst(ws: seq<Width>, saved: set<(nat, string)>) returns (events: seq<Event<Site>>)
    requires |ws| > 0
    ensures Execution(Recheck(ws, saved, 0), events)
    ensures Finished(After(events), RecordGate(|ws| - 1))
    ensures forall j :: j != |ws| - 1 ==> RecordGate(j) !in After(events)
  {
    var graph, last := Recheck(ws, saved, 0), |ws| - 1;
    events := RunMissing(ws, saved, last, |ws[last].fast|);
    assert ws[last].fast[..|ws[last].fast|] == ws[last].fast;
    FastGateIndependent(ws, saved, 0, After(events), [], last);
    events := Extend(graph, events, Start(FastGate(last)));
    events := Extend(graph, events, Finish(FastGate(last), ""));
    RecheckGatesIndependent(ws, saved, 0, After(events), [], last);
    events := Extend(graph, events, Start(RecordGate(last)));
    events := Extend(graph, events, Finish(RecordGate(last), ""));
  }

  /** A recorded gate finds every gate before it recorded. */
  ghost predicate InOrder(calls: Calls<Site>) {
    forall j: nat, k: nat :: j < k && RecordGate(k) in calls ==> Finished(calls, RecordGate(j))
  }

  /** The first pass always records its gates in plan order. */
  lemma StagesInOrder(ws: seq<Width>, events: seq<Event<Site>>)
    requires Execution(Stages(ws, 0), events)
    ensures InOrder(After(events))
  {
    forall j: nat, k: nat | j < k && RecordGate(k) in After(events) ensures Finished(After(events), RecordGate(j)) {
      GatesInOrder(ws, events, j, k);
    }
  }

  /** A recheck does in every execution if and only if it has at most one Change, whatever receipts it reuses. */
  lemma RecheckInOrderExactly(ws: seq<Width>, saved: set<(nat, string)>)
    ensures (forall events :: Execution(Recheck(ws, saved, 0), events) ==> InOrder(After(events))) <==> |ws| <= 1
  {
    if |ws| <= 1 {
      forall events | Execution(Recheck(ws, saved, 0), events) ensures InOrder(After(events)) {
        forall k: nat | RecordGate(k) in After(events) ensures k == 0 {
          StartedIsSite(Recheck(ws, saved, 0), events, RecordGate(k));
          RecheckSites(ws, saved, 0, RecordGate(k));
        }
      }
    } else {
      var events := LastGateFirst(ws, saved);
      assert RecordGate(|ws| - 1) in After(events) && !Finished(After(events), RecordGate(0));
      assert !InOrder(After(events));
    }
  }

  // ---- which calls a recheck makes -----------------------------------------------------------------

  /** The calls of a recheck from Change `i` on: gates and records always, checks exactly where no receipt is saved. */
  predicate Rechecked(ws: seq<Width>, saved: set<(nat, string)>, i: nat, site: Site) {
    match site
    case Implement(_) => false
    case RunFast(k, id) => i <= k < |ws| && id in ws[k].fast && (k, id) !in saved
    case RunSlow(k, id) => i <= k < |ws| && id in ws[k].slow && (k, id) !in saved
    case FastGate(k) => i <= k < |ws|
    case RecordGate(k) => i <= k < |ws|
    case RecordSlow(k, id) => i <= k < |ws| && id in ws[k].slow
  }

  lemma {:induction false} RecheckSites(ws: seq<Width>, saved: set<(nat, string)>, i: nat, site: Site)
    requires i <= |ws|
    ensures site in Sites(Recheck(ws, saved, i)) <==> Rechecked(ws, saved, i, site)
    decreases |ws| - i
  {
    if i < |ws| {
      RecheckSites(ws, saved, i + 1, site);
      FastSites(i, ws[i].fast, RecheckFast(i, ws[i].fast, saved), saved, site);
      SlowSites(i, ws[i].slow, RecheckSlow(i, ws[i].slow, saved), saved, site);
      RecheckUnfolds(ws, saved, i, site);
    }
  }

  lemma RecheckUnfolds(ws: seq<Width>, saved: set<(nat, string)>, i: nat, site: Site)
    requires i < |ws|
    ensures site in Sites(Recheck(ws, saved, i)) <==>
      || site in SitesAll(RecheckFast(i, ws[i].fast, saved)) || site == FastGate(i) || site == RecordGate(i)
      || site in SitesAll(RecheckSlow(i, ws[i].slow, saved)) || site in Sites(Recheck(ws, saved, i + 1))
  {
    var fast, slow, next := RecheckFast(i, ws[i].fast, saved), All(RecheckSlow(i, ws[i].slow, saved)), Recheck(ws, saved, i + 1);
    GatingSites(i, fast, [0]);
    TripleSites(slow, next);
  }

  lemma GatingSites(i: nat, fast: seq<Node<Site>>, refs: seq<nat>)
    ensures Sites(Gating(i, fast, refs)) == SitesAll(fast) + [FastGate(i)] + [RecordGate(i)]
  {
    assert Sites(Bind(All(fast), Call(FastGate(i), refs))) == SitesAll(fast) + [FastGate(i)];
  }

  lemma TripleSites(slow: Node<Site>, next: Node<Site>)
    ensures Sites(Map(Wrap, All([Ref(0), slow, next]))) == Sites(slow) + Sites(next)
  {
    var members := [Ref(0), slow, next];
    assert members[..2] == [Ref(0), slow] && members[..2][..1] == [Ref(0)] && members[..2][..1][..0] == [];
    assert SitesAll(members[..2][..1]) == [];
    assert SitesAll(members[..2]) == Sites(slow);
    assert SitesAll(members) == Sites(slow) + Sites(next);
  }

  lemma {:induction false} FastSites(
    i: nat, ids: seq<string>, nodes: seq<Node<Site>>, saved: set<(nat, string)>, site: Site)
    requires |nodes| == |ids|
    requires forall k :: 0 <= k < |ids| ==>
               nodes[k] == if (i, ids[k]) in saved then Succeed(List([])) else Call(RunFast(i, ids[k]), [])
    ensures site in SitesAll(nodes) <==> site.RunFast? && site.i == i && site.id in ids && (i, site.id) !in saved
    decreases |ids|
  {
    if ids != [] {
      var n := |ids| - 1;
      assert ids == ids[..n] + [ids[n]];
      FastSites(i, ids[..n], nodes[..n], saved, site);
    }
  }

  lemma {:induction false} SlowSites(
    i: nat, ids: seq<string>, nodes: seq<Node<Site>>, saved: set<(nat, string)>, site: Site)
    requires |nodes| == |ids|
    requires forall k :: 0 <= k < |ids| ==>
               nodes[k] == Bind(if (i, ids[k]) in saved then Succeed(List([])) else Call(RunSlow(i, ids[k]), []),
                                Call(RecordSlow(i, ids[k]), [0]))
    ensures site in SitesAll(nodes) <==>
      || (site.RunSlow? && site.i == i && site.id in ids && (i, site.id) !in saved)
      || (site.RecordSlow? && site.i == i && site.id in ids)
    decreases |ids|
  {
    if ids != [] {
      var n := |ids| - 1;
      assert ids == ids[..n] + [ids[n]];
      SlowSites(i, ids[..n], nodes[..n], saved, site);
      var first := nodes[n].first;
      assert Sites(first) == if (i, ids[n]) in saved then [] else [RunSlow(i, ids[n])];
      assert Sites(nodes[n]) == Sites(first) + [RecordSlow(i, ids[n])];
    }
  }

  lemma Extend(graph: Node<Site>, events: seq<Event<Site>>, event: Event<Site>) returns (more: seq<Event<Site>>)
    requires Execution(graph, events) && Possible(graph, After(events), event)
    ensures Execution(graph, more) && After(more) == Happen(After(events), event)
  {
    more := events + [event];
    assert more[..|events|] == events;
  }

  lemma {:induction false} FastGateIndependent(
    ws: seq<Width>, saved: set<(nat, string)>, i: nat, calls: Calls<Site>, env: Env, k: nat)
    requires i <= k < |ws| && FastGate(k) !in calls
    requires forall id :: id in ws[k].fast && (k, id) !in saved ==> Finished(calls, RunFast(k, id))
    ensures Enabled(Recheck(ws, saved, i), calls, env, FastGate(k))
    decreases |ws| - i
  {
    var fast := RecheckFast(i, ws[i].fast, saved);
    var gating := Gating(i, fast, [0]);
    if i == k {
      RecheckFastSettles(ws[i].fast, i, fast, saved, calls, env);
      var all := Eval(All(fast), calls, env);
      assert At([all] + env, 0).Some?;
      assert Enabled(Call(FastGate(i), [0]), calls, [all] + env, FastGate(k));
      assert Enabled(Bind(All(fast), Call(FastGate(i), [0])), calls, env, FastGate(k));
      assert Enabled(gating, calls, env, FastGate(k));
    } else {
      var env1 := [Eval(gating, calls, env)] + env;
      FastGateIndependent(ws, saved, i + 1, calls, env1, k);
      var rest := [Ref(0), All(RecheckSlow(i, ws[i].slow, saved)), Recheck(ws, saved, i + 1)];
      assert rest[2] in rest;
      assert Enabled(All(rest), calls, env1, FastGate(k));
      assert Enabled(Map(Wrap, All(rest)), calls, env1, FastGate(k));
    }
  }

  /** A missing fast check of any Change can run at once: it refers to nothing earlier. */
  lemma {:induction false} RunFastIndependent(
    ws: seq<Width>, saved: set<(nat, string)>, i: nat, calls: Calls<Site>, env: Env, k: nat, id: string)
    requires i <= k < |ws| && id in ws[k].fast && (k, id) !in saved && RunFast(k, id) !in calls
    ensures Enabled(Recheck(ws, saved, i), calls, env, RunFast(k, id))
    decreases |ws| - i
  {
    var fast := RecheckFast(i, ws[i].fast, saved);
    var gating := Gating(i, fast, [0]);
    if i == k {
      var n :| 0 <= n < |ws[i].fast| && ws[i].fast[n] == id;
      assert fast[n] in fast && Enabled(fast[n], calls, env, RunFast(k, id));
      assert Enabled(Bind(All(fast), Call(FastGate(i), [0])), calls, env, RunFast(k, id));
      assert Enabled(gating, calls, env, RunFast(k, id));
    } else {
      var env1 := [Eval(gating, calls, env)] + env;
      RunFastIndependent(ws, saved, i + 1, calls, env1, k, id);
      var rest := [Ref(0), All(RecheckSlow(i, ws[i].slow, saved)), Recheck(ws, saved, i + 1)];
      assert rest[2] in rest;
      assert Enabled(All(rest), calls, env1, RunFast(k, id));
      assert Enabled(Map(Wrap, All(rest)), calls, env1, RunFast(k, id));
    }
  }
}
