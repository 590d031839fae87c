/** examples/src/16-fan-out-fan-in.ts: checks grouped into priority batches and staged one batch after another. */
module FanOut {
  import opened Wrappers
  import opened Sorting
  import opened PlanGraph

  datatype CheckSpec = CheckSpec(name: string, priority: int)
  datatype Entry = Entry(spec: CheckSpec, index: nat)

  const MAX_SAFE_INTEGER: int := 0x1F_FFFF_FFFF_FFFF

  // ---- batches -----------------------------------------------------------------------------------

  function Entries(checks: seq<CheckSpec>): (es: seq<Entry>)
    ensures |es| == |checks| && forall i :: 0 <= i < |es| ==> es[i] == Entry(checks[i], i)
  {
    seq(|checks|, i requires 0 <= i < |checks| => Entry(checks[i], i))
  }

  /** Higher priority first, declaration order among equals. */
  predicate Sooner(a: Entry, b: Entry) {
    a.spec.priority > b.spec.priority || (a.spec.priority == b.spec.priority && a.index < b.index)
  }

  function Order(checks: seq<CheckSpec>): seq<Entry> {
    Sort(Sooner, Entries(checks))
  }

  function Names(es: seq<Entry>): (ns: seq<string>)
    ensures |ns| == |es| && forall i :: 0 <= i < |ns| ==> ns[i] == es[i].spec.name
  {
    seq(|es|, i requires 0 <= i < |es| => es[i].spec.name)
  }

  /** The batch order is every declared check exactly once, by priority and then declaration. */
  lemma OrderIsStable(checks: seq<CheckSpec>)
    ensures multiset(Order(checks)) == multiset(Entries(checks))
    ensures Increasing(Sooner, Order(checks))
    ensures forall i, j :: 0 <= i < j < |Order(checks)| ==>
              var a, b := Order(checks)[i], Order(checks)[j];
              a.spec.priority >= b.spec.priority && (a.spec.priority == b.spec.priority ==> a.index < b.index)
  {
    var es := Entries(checks);
    assert forall a, b :: a in es && b in es && a != b ==> a.index != b.index;
    SortIncreasing(Sooner, es, es);
  }

  /** A split of a list into non-empty groups of at most `bound`, all but the last of exactly `bound`. */
  ghost predicate Split(groups: seq<seq<string>>, order: seq<string>, bound: nat) {
    && Concat(groups) == order
    && (forall g :: 0 <= g < |groups| ==> 0 < |groups[g]| <= bound)
    && (forall g :: 0 <= g < |groups| - 1 ==> |groups[g]| == bound)
  }

  /** A bad bound is refused; otherwise the ordered names are split into full groups, in order, losing nothing. */
  method Batches(checks: seq<CheckSpec>, concurrency: int) returns (r: Option<seq<seq<string>>>)
    ensures r.None? <==> concurrency < 1 || concurrency > MAX_SAFE_INTEGER
    ensures r.Some? ==> Split(r.value, Names(Order(checks)), concurrency)
  {
    if concurrency < 1 || concurrency > MAX_SAFE_INTEGER { return None; }
    var order := Names(Order(checks));
    var grouped := Group(order, concurrency);
    r := Some(grouped);
  }

  /** The loop that slices the order. */
  method Group(order: seq<string>, bound: nat) returns (grouped: seq<seq<string>>)
    requires bound > 0
    ensures Split(grouped, order, bound)
  {
    var offset;
    grouped, offset := [], 0;
    while offset < |order|
      invariant Sliced(grouped, order, bound, offset)
      decreases |order| - offset
    {
      var end := if offset + bound < |order| then offset + bound else |order|;
      SliceStep(grouped, order, bound, offset, end);
      grouped, offset := grouped + [order[offset..end]], offset + bound;
    }
    assert order[..|order|] == order;
  }

  /** The first `offset` names are grouped, and only the last group of the whole order may fall short. */
  ghost predicate Sliced(groups: seq<seq<string>>, order: seq<string>, bound: nat, offset: nat) {
    && Split(groups, order[..if offset < |order| then offset else |order|], bound)
    && (offset < |order| && groups != [] ==> |groups[|groups| - 1]| == bound)
  }

  lemma SliceStep(groups: seq<seq<string>>, order: seq<string>, bound: nat, offset: nat, end: nat)
    requires Sliced(groups, order, bound, offset) && 0 < bound && offset < |order|
    requires end == if offset + bound < |order| then offset + bound else |order|
    ensures Sliced(groups + [order[offset..end]], order, bound, offset + bound)
  {
    var group := order[offset..end];
    var more := groups + [group];
    ConcatSnoc(groups, group);
    assert order[..end] == order[..offset] + group;
    forall g | 0 <= g < |more| ensures 0 < |more[g]| <= bound && (g < |more| - 1 ==> |more[g]| == bound) {
      if g < |groups| { assert more[g] == groups[g]; }
    }
  }

  // ---- the staged graph --------------------------------------------------------------------------

  datatype Site = CheckAt(batch: nat, name: string) | Collect

  /** Duplicate names in a batch are one record field, hence one call. */
  function BatchCalls(names: seq<string>, i: nat): (nodes: seq<Node<Site>>)
    ensures |nodes| == |names| && forall k :: 0 <= k < |nodes| ==> nodes[k] == Call(CheckAt(i, names[k]), if i == 0 then [] else [0])
  {
    seq(|names|, k requires 0 <= k < |names| => Call(CheckAt(i, names[k]), if i == 0 then [] else [0]))
  }

  function Upto(n: nat): (r: seq<nat>)
    ensures |r| == n && forall k :: 0 <= k < n ==> r[k] == k
  {
    seq(n, k requires 0 <= k < n => k)
  }

  /** Each batch consumes the previous batch's verdicts; the collector consumes all of them. */
  function Stage(batches: seq<seq<string>>, i: nat): Node<Site>
    requires i <= |batches|
    decreases |batches| - i
  {
    if i == |batches| then Call(Collect, Upto(i))
    else Bind(All(BatchCalls(Dedup(batches[i]), i)), Stage(batches, i + 1))
  }

  ghost predicate BatchDone(batches: seq<seq<string>>, k: nat, calls: Calls<Site>)
    requires k < |batches|
  {
    forall name :: name in batches[k] ==> Finished(calls, CheckAt(k, name))
  }

  lemma {:induction false} EvalBatch(nodes: seq<Node<Site>>, names: seq<string>, i: nat, calls: Calls<Site>, env: Env)
    requires |nodes| == |names|
    requires forall k :: 0 <= k < |nodes| ==> nodes[k].Call? && nodes[k].site == CheckAt(i, names[k])
    ensures EvalAll(nodes, calls, env).Some? <==> forall k :: 0 <= k < |names| ==> Finished(calls, CheckAt(i, names[k]))
    decreases |nodes|
  {
    if nodes != [] {
      var n := |nodes| - 1;
      EvalBatch(nodes[..n], names[..n], i, calls, env);
      assert Eval(nodes[n], calls, env).Some? <==> Finished(calls, CheckAt(i, names[n]));
      assert forall k :: 0 <= k < n ==> names[..n][k] == names[k];
    }
  }

  lemma BatchSettles(batches: seq<seq<string>>, i: nat, calls: Calls<Site>, env: Env)
    requires i < |batches|
    ensures Eval(All(BatchCalls(Dedup(batches[i]), i)), calls, env).Some? <==> BatchDone(batches, i, calls)
  {
    var names := Dedup(batches[i]);
    EvalBatch(BatchCalls(names, i), names, i, calls, env);
    assert forall name :: name in batches[i] ==> name in names;
    assert forall k :: 0 <= k < |names| ==> names[k] in names && names[k] in batches[i];
  }

  /** The environment inside stage `i`: the verdicts of the batches before it, innermost first. */
  ghost predicate Stands(batches: seq<seq<string>>, i: nat, calls: Calls<Site>, env: Env) {
    && |env| == i <= |batches|
    && forall k {:trigger At(env, k)} :: 0 <= k < i ==> (At(env, k).Some? <==> BatchDone(batches, i - 1 - k, calls))
  }

  /** When the gate may start a call: its batch's predecessor has settled; the collector needs every batch. */
  ghost predicate Startable(batches: seq<seq<string>>, i: nat, calls: Calls<Site>, site: Site) {
    && site !in calls
    && match site
       case CheckAt(k, name) => i <= k < |batches| && name in batches[k] && (k > 0 ==> BatchDone(batches, k - 1, calls))
       case Collect => forall k :: 0 <= k < |batches| ==> BatchDone(batches, k, calls)
  }

  lemma {:induction false} EnabledStage(batches: seq<seq<string>>, i: nat, calls: Calls<Site>, env: Env, site: Site)
    requires Stands(batches, i, calls, env)
    ensures Enabled(Stage(batches, i), calls, env, site) <==> Startable(batches, i, calls, site)
    decreases |batches| - i
  {
    if i == |batches| {
      EnabledCollect(batches, calls, env, site);
    } else {
      var verdicts := Verdicts(batches, i, calls, env);
      BatchSettles(batches, i, calls, env);
      StandsInside(batches, i, calls, env, verdicts);
      EnabledStage(batches, i + 1, calls, [verdicts] + env, site);
      StageUnfolds(batches, i, calls, env, site);
      StartableSplits(batches, i, calls, site);
    }
  }

  /** What the stages after batch `i` see of it. */
  ghost function Verdicts(batches: seq<seq<string>>, i: nat, calls: Calls<Site>, env: Env): Option<Val>
    requires i < |batches|
  {
    Eval(All(BatchCalls(Dedup(batches[i]), i)), calls, env)
  }

  lemma StageUnfolds(batches: seq<seq<string>>, i: nat, calls: Calls<Site>, env: Env, site: Site)
    requires Stands(batches, i, calls, env) && i < |batches|
    ensures Enabled(Stage(batches, i), calls, env, site) <==>
      || (site.CheckAt? && site.batch == i && Startable(batches, i, calls, site))
      || Enabled(Stage(batches, i + 1), calls, [Verdicts(batches, i, calls, env)] + env, site)
  {
    EnabledBatch(batches, i, calls, env, site);
    EnabledBind(All(BatchCalls(Dedup(batches[i]), i)), Stage(batches, i + 1), calls, env, site);
  }

  lemma EnabledBind(first: Node<Site>, body: Node<Site>, calls: Calls<Site>, env: Env, site: Site)
    ensures Enabled(Bind(first, body), calls, env, site) <==>
      Enabled(first, calls, env, site) || Enabled(body, calls, [Eval(first, calls, env)] + env, site)
  {
  }

  lemma StartableSplits(batches: seq<seq<string>>, i: nat, calls: Calls<Site>, site: Site)
    requires i < |batches|
    ensures Startable(batches, i, calls, site) <==>
      (site.CheckAt? && site.batch == i && Startable(batches, i, calls, site)) || Startable(batches, i + 1, calls, site)
  {
  }

  lemma StandsInside(batches: seq<seq<string>>, i: nat, calls: Calls<Site>, env: Env, verdicts: Option<Val>)
    requires Stands(batches, i, calls, env) && i < |batches| && (verdicts.Some? <==> BatchDone(batches, i, calls))
    ensures Stands(batches, i + 1, calls, [verdicts] + env)
  {
    var inner := [verdicts] + env;
    forall k | 0 <= k < i + 1 ensures At(inner, k).Some? <==> BatchDone(batches, i - k, calls) {
      if k > 0 { assert At(inner, k) == At(env, k - 1); }
    }
  }

  lemma EnabledCollect(batches: seq<seq<string>>, calls: Calls<Site>, env: Env, site: Site)
    requires Stands(batches, |batches|, calls, env)
    ensures Enabled(Stage(batches, |batches|), calls, env, site) <==> Startable(batches, |batches|, calls, site)
  {
    var n := |batches|;
    if Enabled(Stage(batches, n), calls, env, site) {
      forall j | 0 <= j < n ensures BatchDone(batches, j, calls) {
        assert Upto(n)[n - 1 - j] == n - 1 - j;
        assert At(env, n - 1 - j).Some?;
      }
    }
    if Startable(batches, n, calls, site) {
      forall k: nat | k in Upto(n) ensures At(env, k).Some? {
        assert BatchDone(batches, n - 1 - k, calls);
      }
    }
  }

  lemma EnabledBatch(batches: seq<seq<string>>, i: nat, calls: Calls<Site>, env: Env, site: Site)
    requires Stands(batches, i, calls, env) && i < |batches|
    ensures Enabled(All(BatchCalls(Dedup(batches[i]), i)), calls, env, site) <==>
            site.CheckAt? && site.batch == i && Startable(batches, i, calls, site)
  {
    var names := Dedup(batches[i]);
    var nodes := BatchCalls(names, i);
    if m :| m in nodes && Enabled(m, calls, env, site) {
      var k :| 0 <= k < |nodes| && nodes[k] == m;
      assert names[k] in names;
      EnabledCheck(batches, i, names[k], calls, env, site);
    }
    if site.CheckAt? && site.batch == i && Startable(batches, i, calls, site) {
      assert site.name in names;
      var k :| 0 <= k < |names| && names[k] == site.name;
      EnabledCheck(batches, i, names[k], calls, env, site);
      assert nodes[k] in nodes;
    }
  }

  lemma EnabledCheck(batches: seq<seq<string>>, i: nat, name: string, calls: Calls<Site>, env: Env, site: Site)
    requires Stands(batches, i, calls, env) && i < |batches| && name in batches[i]
    ensures Enabled(Call(CheckAt(i, name), if i == 0 then [] else [0]), calls, env, site) <==>
            site == CheckAt(i, name) && Startable(batches, i, calls, site)
  {
    if i > 0 { PreviousSettled(batches, i, calls, env); }
  }

  lemma PreviousSettled(batches: seq<seq<string>>, i: nat, calls: Calls<Site>, env: Env)
    requires Stands(batches, i, calls, env) && i > 0
    ensures At(env, 0).Some? <==> BatchDone(batches, i - 1, calls)
  {
    assert At(env, 0).Some? <==> BatchDone(batches, i - 1 - 0, calls);
  }

  // ---- every execution of the gate ---------------------------------------------------------------

  ghost predicate NonEmpty(batches: seq<seq<string>>) {
    forall k :: 0 <= k < |batches| ==> |batches[k]| > 0
  }

  /** A started check belongs to its batch, and every earlier batch had settled completely before it. */
  lemma {:induction false} WholeBatchesFirst(batches: seq<seq<string>>, events: seq<Event<Site>>, k: nat, name: string, j: nat)
    requires Execution(Stage(batches, 0), events) && NonEmpty(batches)
    requires CheckAt(k, name) in After(events) && j < k
    ensures k < |batches| && BatchDone(batches, j, After(events))
    decreases |events|, k
  {
    var init, event := events[..|events| - 1], events[|events| - 1];
    var before, site := After(init), CheckAt(k, name);
    HappenExtends(Stage(batches, 0), before, event);
    if site in before {
      WholeBatchesFirst(batches, init, k, name, j);
    } else {
      EnabledStage(batches, 0, before, [], site);
      if j < k - 1 {
        assert batches[k - 1][0] in batches[k - 1];
        WholeBatchesFirst(batches, init, k - 1, batches[k - 1][0], j);
      }
    }
  }

  lemma {:induction false} OnlyDeclared(batches: seq<seq<string>>, events: seq<Event<Site>>, k: nat, name: string)
    requires Execution(Stage(batches, 0), events) && CheckAt(k, name) in After(events)
    ensures k < |batches| && name in batches[k]
  {
    var init, event := events[..|events| - 1], events[|events| - 1];
    if CheckAt(k, name) in After(init) {
      OnlyDeclared(batches, init, k, name);
    } else {
      EnabledStage(batches, 0, After(init), [], CheckAt(k, name));
    }
  }

  ghost function InFlight(calls: Calls<Site>): set<Site> {
    set s | s in calls && s.CheckAt? && calls[s].Running?
  }

  /** At every moment of every execution, at most `bound` checks are in flight. */
  lemma BoundedInFlight(batches: seq<seq<string>>, bound: nat, events: seq<Event<Site>>)
    requires Execution(Stage(batches, 0), events) && NonEmpty(batches)
    requires forall k :: 0 <= k < |batches| ==> |batches[k]| <= bound
    ensures |InFlight(After(events))| <= bound
  {
    var calls := After(events);
    var flight := InFlight(calls);
    if flight != {} {
      var s :| s in flight;
      OnlyDeclared(batches, events, s.batch, s.name);
      forall t | t in flight ensures t in Image(s.batch, batches[s.batch]) {
        OnlyDeclared(batches, events, t.batch, t.name);
        if s.batch < t.batch { WholeBatchesFirst(batches, events, t.batch, t.name, s.batch); }
        if t.batch < s.batch { WholeBatchesFirst(batches, events, s.batch, s.name, t.batch); }
        ImageHas(s.batch, batches[s.batch], t.name);
      }
      ImageSize(s.batch, batches[s.batch]);
      SubsetSize(flight, Image(s.batch, batches[s.batch]));
    }
  }

  ghost function Image(k: nat, names: seq<string>): set<Site> {
    if names == [] then {} else Image(k, names[..|names| - 1]) + {CheckAt(k, names[|names| - 1])}
  }

  lemma {:induction false} ImageHas(k: nat, names: seq<string>, name: string)
    ensures name in names ==> CheckAt(k, name) in Image(k, names)
  {
    if names != [] {
      assert names == names[..|names| - 1] + [names[|names| - 1]];
      ImageHas(k, names[..|names| - 1], name);
    }
  }

  lemma {:induction false} ImageSize(k: nat, names: seq<string>)
    ensures |Image(k, names)| <= |names|
  {
    if names != [] { ImageSize(k, names[..|names| - 1]); }
  }

  /** Grouping by `Batches` and staging the groups keeps the declared bound in every execution. */
  lemma BatchedGateIsBounded(groups: seq<seq<string>>, order: seq<string>, bound: nat, events: seq<Event<Site>>)
    requires Split(groups, order, bound) && Execution(Stage(groups, 0), events)
    ensures |InFlight(After(events))| <= bound
  {
    BoundedInFlight(groups, bound, events);
  }
}
