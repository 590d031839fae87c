/** examples/src/33-delegation-trellis.ts: a model-authored series-parallel plan compiled to a node graph. */
module Trellis {
  import opened Wrappers
  import opened PlanGraph
  import opened Decimal

  datatype Plan = Agent(goal: string) | Sequence(members: seq<Plan>) | Parallel(members: seq<Plan>)

  /** One delegated call: its goal and the plan path it came from. */
  datatype Leaf = Leaf(goal: string, path: string)

  function ChildPath(path: string, p: Plan, i: nat): string {
    path + (if p.Sequence? then ".sequence[" else ".parallel[") + Digits(i) + "]"
  }

  // ---- lowering ----------------------------------------------------------------------------------

  function Lower(p: Plan, path: string): Node<Leaf>
    decreases p
  {
    match p
    case Agent(goal) => Map(Wrap, Call(Leaf(goal, path), []))
    case Parallel(members) => Map(Flatten, All(LowerMembers(p, path, |members|)))
    case Sequence(members) => LowerSequence(p, path, |members|)
  }

  /** The `calls` record of a parallel group after its first `n` members. */
  function LowerMembers(p: Plan, path: string, n: nat): (nodes: seq<Node<Leaf>>)
    requires !p.Agent? && n <= |p.members|
    decreases p, n
  {
    if n == 0 then [] else LowerMembers(p, path, n - 1) + [Lower(p.members[n - 1], ChildPath(path, p, n - 1))]
  }

  /** The rebound `sequence` variable after `n` members. */
  function LowerSequence(p: Plan, path: string, n: nat): Node<Leaf>
    requires !p.Agent? && n <= |p.members|
    decreases p, n
  {
    if n == 0 then Succeed(List([]))
    else
      var next := Lower(p.members[n - 1], ChildPath(path, p, n - 1));
      Bind(LowerSequence(p, path, n - 1), Map(Flatten, AndThen(Ref(0), All([Ref(0), next]))))
  }

  // ---- what a plan asks for, without graphs ------------------------------------------------------

  /** A plan's leaves in plan order. */
  function Leaves(p: Plan, path: string): seq<Leaf>
    decreases p
  {
    if p.Agent? then [Leaf(p.goal, path)] else LeavesOf(p, path, |p.members|)
  }

  function LeavesOf(p: Plan, path: string, n: nat): seq<Leaf>
    requires !p.Agent? && n <= |p.members|
    decreases p, n
  {
    if n == 0 then [] else LeavesOf(p, path, n - 1) + Leaves(p.members[n - 1], ChildPath(path, p, n - 1))
  }

  /** Leaf `b` lies in a later member than `a` of some sequence. */
  ghost predicate Follows(p: Plan, path: string, a: Leaf, b: Leaf)
    decreases p
  {
    !p.Agent? && FollowsIn(p, path, |p.members|, a, b)
  }

  ghost predicate FollowsIn(p: Plan, path: string, n: nat, a: Leaf, b: Leaf)
    requires !p.Agent? && n <= |p.members|
    decreases p, n
  {
    n > 0 &&
    var child := ChildPath(path, p, n - 1);
    || FollowsIn(p, path, n - 1, a, b)
    || Follows(p.members[n - 1], child, a, b)
    || (p.Sequence? && a in LeavesOf(p, path, n - 1) && b in Leaves(p.members[n - 1], child))
  }

  predicate AllDone(leaves: seq<Leaf>, calls: Calls<Leaf>) {
    forall i :: 0 <= i < |leaves| ==> Finished(calls, leaves[i])
  }

  function Answer(leaf: Leaf, calls: Calls<Leaf>): Val {
    Str(if Finished(calls, leaf) then calls[leaf].result else "")
  }

  function Answers(leaves: seq<Leaf>, calls: Calls<Leaf>): (vs: seq<Val>)
    ensures |vs| == |leaves| && forall i :: 0 <= i < |vs| ==> vs[i] == Answer(leaves[i], calls)
  {
    seq(|leaves|, i requires 0 <= i < |leaves| => Answer(leaves[i], calls))
  }

  /** A leaf may start: it has not, and every earlier member of each enclosing sequence is finished. */
  predicate Ready(p: Plan, path: string, calls: Calls<Leaf>, leaf: Leaf)
    decreases p
  {
    if p.Agent? then leaf == Leaf(p.goal, path) && leaf !in calls else ReadyIn(p, path, |p.members|, calls, leaf)
  }

  predicate ReadyIn(p: Plan, path: string, n: nat, calls: Calls<Leaf>, leaf: Leaf)
    requires !p.Agent? && n <= |p.members|
    decreases p, n
  {
    n > 0 &&
    var waited := p.Sequence? ==> AllDone(LeavesOf(p, path, n - 1), calls);
    ReadyIn(p, path, n - 1, calls, leaf) || (waited && Ready(p.members[n - 1], ChildPath(path, p, n - 1), calls, leaf))
  }

  // ---- the lowered graph settles and enables exactly as the plan says ----------------------------

  lemma DoneConcat(a: seq<Leaf>, b: seq<Leaf>, calls: Calls<Leaf>)
    ensures AllDone(a + b, calls) <==> AllDone(a, calls) && AllDone(b, calls)
    ensures Answers(a + b, calls) == Answers(a, calls) + Answers(b, calls)
  {
    var c := a + b;
    assert forall i :: 0 <= i < |a| ==> c[i] == a[i];
    assert forall i :: 0 <= i < |b| ==> c[|a| + i] == b[i];
    assert forall i :: |a| <= i < |c| ==> c[i] == b[i - |a|];
  }

  /** A lowered plan's output is its leaf answers in plan order, available exactly when all leaves are finished. */
  lemma {:induction false} EvalLowered(p: Plan, path: string, calls: Calls<Leaf>, env: Env)
    ensures Eval(Lower(p, path), calls, env) ==
            if AllDone(Leaves(p, path), calls) then Some(List(Answers(Leaves(p, path), calls))) else None
    decreases p
  {
    match p
    case Agent(goal) =>
      assert Leaves(p, path) == [Leaf(goal, path)];
      var leaf := Leaf(goal, path);
      assert Answers([leaf], calls) == [Answer(leaf, calls)] && (AllDone([leaf], calls) <==> Finished(calls, [leaf][0]));
      assert Eval(Call(leaf, []), calls, env) == if Finished(calls, leaf) then Some(Answer(leaf, calls)) else None;
    case Parallel(members) => EvalMembers(p, path, |members|, calls, env);
    case Sequence(members) => EvalSequence(p, path, |members|, calls, env);
  }

  lemma {:induction false} EvalMembers(p: Plan, path: string, n: nat, calls: Calls<Leaf>, env: Env)
    requires !p.Agent? && n <= |p.members|
    ensures var vs := EvalAll(LowerMembers(p, path, n), calls, env);
      && (vs.Some? <==> AllDone(LeavesOf(p, path, n), calls))
      && (vs.Some? ==> Flat(vs.value) == Answers(LeavesOf(p, path, n), calls))
    decreases p, n
  {
    if n > 0 {
      var child := ChildPath(path, p, n - 1);
      var init, all := LowerMembers(p, path, n - 1), LowerMembers(p, path, n);
      assert all[..|all| - 1] == init;
      EvalMembers(p, path, n - 1, calls, env);
      EvalLowered(p.members[n - 1], child, calls, env);
      DoneConcat(LeavesOf(p, path, n - 1), Leaves(p.members[n - 1], child), calls);
      var vs, pre := EvalAll(all, calls, env), EvalAll(init, calls, env);
      if vs.Some? { assert vs.value[..|vs.value| - 1] == pre.value; }
    }
  }

  lemma {:induction false} EvalSequence(p: Plan, path: string, n: nat, calls: Calls<Leaf>, env: Env)
    requires !p.Agent? && n <= |p.members|
    ensures Eval(LowerSequence(p, path, n), calls, env) ==
            if AllDone(LeavesOf(p, path, n), calls) then Some(List(Answers(LeavesOf(p, path, n), calls))) else None
    decreases p, n
  {
    if n > 0 {
      var child := ChildPath(path, p, n - 1);
      var next := Lower(p.members[n - 1], child);
      var previous := Eval(LowerSequence(p, path, n - 1), calls, env);
      EvalSequence(p, path, n - 1, calls, env);
      EvalLowered(p.members[n - 1], child, calls, [previous] + env);
      DoneConcat(LeavesOf(p, path, n - 1), Leaves(p.members[n - 1], child), calls);
      if previous.Some? { EvalStep(next, calls, env, previous.value); }
    }
  }

  /** One sequence step appends the next member's list to the previous output. */
  lemma EvalStep(next: Node<Leaf>, calls: Calls<Leaf>, env: Env, previous: Val)
    requires previous.List?
    ensures var body := Map(Flatten, AndThen(Ref(0), All([Ref(0), next])));
      var inner := Eval(next, calls, [Some(previous)] + env);
      Eval(body, calls, [Some(previous)] + env) ==
        if inner.None? then None else Some(List(previous.items + (if inner.value.List? then inner.value.items else [])))
  {
    var env' := [Some(previous)] + env;
    var inner := Eval(next, calls, env');
    var members := [Ref(0), next];
    assert members[..1] == [Ref(0)] && members[..1][..0] == [];
    assert EvalAll(members[..1][..0], calls, env') == Some([]) && Eval(members[..1][0], calls, env') == Some(previous);
    assert [] + [previous] == [previous];
    assert EvalAll(members[..1], calls, env') == Some([previous]);
    if inner.Some? {
      var vs := [previous] + [inner.value];
      assert vs == [previous, inner.value];
      assert vs[..1] == [previous] && vs[..1][..0] == [];
      assert Flat([previous]) == previous.items;
      assert EvalAll(members, calls, env') == Some(vs);
    }
    assert Eval(All(members), calls, env') == if inner.None? then None else Some(List([previous, inner.value]));
    assert Eval(AndThen(Ref(0), All(members)), calls, env') == Eval(All(members), calls, env');
  }

  /** The graph lets a call start exactly when the plan makes its leaf ready, under any surrounding environment. */
  lemma {:induction false} EnabledLowered(p: Plan, path: string, calls: Calls<Leaf>, env: Env, leaf: Leaf)
    ensures Enabled(Lower(p, path), calls, env, leaf) <==> Ready(p, path, calls, leaf)
    decreases p
  {
    match p
    case Agent(goal) =>
    case Parallel(members) => EnabledMembers(p, path, |members|, calls, env, leaf);
    case Sequence(members) => EnabledSequence(p, path, |members|, calls, env, leaf);
  }

  lemma {:induction false} EnabledMembers(p: Plan, path: string, n: nat, calls: Calls<Leaf>, env: Env, leaf: Leaf)
    requires p.Parallel? && n <= |p.members|
    ensures (exists m :: m in LowerMembers(p, path, n) && Enabled(m, calls, env, leaf)) <==> ReadyIn(p, path, n, calls, leaf)
    decreases p, n
  {
    if n > 0 {
      EnabledMembers(p, path, n - 1, calls, env, leaf);
      EnabledLowered(p.members[n - 1], ChildPath(path, p, n - 1), calls, env, leaf);
      assert Lower(p.members[n - 1], ChildPath(path, p, n - 1)) in LowerMembers(p, path, n);
    }
  }

  lemma {:induction false} EnabledSequence(p: Plan, path: string, n: nat, calls: Calls<Leaf>, env: Env, leaf: Leaf)
    requires p.Sequence? && n <= |p.members|
    ensures Enabled(LowerSequence(p, path, n), calls, env, leaf) <==> ReadyIn(p, path, n, calls, leaf)
    decreases p, n
  {
    if n > 0 {
      var child := ChildPath(path, p, n - 1);
      var previous := Eval(LowerSequence(p, path, n - 1), calls, env);
      EnabledSequence(p, path, n - 1, calls, env, leaf);
      EvalSequence(p, path, n - 1, calls, env);
      EnabledLowered(p.members[n - 1], child, calls, [previous] + env, leaf);
      EnabledStep(Lower(p.members[n - 1], child), calls, [previous] + env, leaf);
    }
  }

  lemma EnabledStep(next: Node<Leaf>, calls: Calls<Leaf>, env: Env, leaf: Leaf)
    requires |env| > 0
    ensures Enabled(Map(Flatten, AndThen(Ref(0), All([Ref(0), next]))), calls, env, leaf) <==>
            env[0].Some? && Enabled(next, calls, env, leaf)
  {
    var members := [Ref(0), next];
    assert next in members && forall m :: m in members ==> m == Ref(0) || m == next;
    assert !Enabled(Ref(0), calls, env, leaf) && Eval(Ref(0), calls, env) == env[0];
    assert Enabled(All(members), calls, env, leaf) <==> Enabled(next, calls, env, leaf);
    assert Enabled(AndThen(Ref(0), All(members)), calls, env, leaf) <==> env[0].Some? && Enabled(next, calls, env, leaf);
  }

  // ---- each leaf is one call with its own path ---------------------------------------------------

  /** The graph's action calls are the plan's leaves, each exactly once and in plan order. */
  lemma {:induction false} CallsAreLeaves(p: Plan, path: string)
    ensures Sites(Lower(p, path)) == Leaves(p, path)
    decreases p
  {
    match p
    case Agent(goal) =>
    case Parallel(members) => MemberCalls(p, path, |members|);
    case Sequence(members) => SequenceCalls(p, path, |members|);
  }

  lemma {:induction false} MemberCalls(p: Plan, path: string, n: nat)
    requires !p.Agent? && n <= |p.members|
    ensures SitesAll(LowerMembers(p, path, n)) == LeavesOf(p, path, n)
    decreases p, n
  {
    if n > 0 {
      var all := LowerMembers(p, path, n);
      assert all[..|all| - 1] == LowerMembers(p, path, n - 1);
      MemberCalls(p, path, n - 1);
      CallsAreLeaves(p.members[n - 1], ChildPath(path, p, n - 1));
    }
  }

  lemma {:induction false} SequenceCalls(p: Plan, path: string, n: nat)
    requires !p.Agent? && n <= |p.members|
    ensures Sites(LowerSequence(p, path, n)) == LeavesOf(p, path, n)
    decreases p, n
  {
    if n > 0 {
      var next := Lower(p.members[n - 1], ChildPath(path, p, n - 1));
      SequenceCalls(p, path, n - 1);
      CallsAreLeaves(p.members[n - 1], ChildPath(path, p, n - 1));
      var members: seq<Node<Leaf>> := [Ref(0), next];
      assert members[..1] == [Ref(0)] && members[..1][..0] == [];
      assert SitesAll(members[..1]) == [];
      assert SitesAll(members) == Sites(next);
      assert Sites(AndThen(Ref(0), All(members))) == Sites(next);
    }
  }

  lemma {:induction false} LeafPaths(p: Plan, path: string, leaf: Leaf)
    requires leaf in Leaves(p, path)
    ensures path <= leaf.path
    decreases p
  {
    if !p.Agent? { var i := MemberOf(p, path, |p.members|, leaf); }
  }

  lemma {:induction false} MemberOf(p: Plan, path: string, n: nat, leaf: Leaf) returns (i: nat)
    requires !p.Agent? && n <= |p.members| && leaf in LeavesOf(p, path, n)
    ensures i < n && leaf in Leaves(p.members[i], ChildPath(path, p, i)) && ChildPath(path, p, i) <= leaf.path
    ensures path <= leaf.path
    decreases p, n
  {
    var child := ChildPath(path, p, n - 1);
    if leaf in Leaves(p.members[n - 1], child) {
      i := n - 1;
      LeafPaths(p.members[n - 1], child, leaf);
      assert path <= child;
    } else {
      i := MemberOf(p, path, n - 1, leaf);
    }
  }

  // ---- paths lead back ---------------------------------------------------------------------------

  /** One turn into a group: which kind of group, and which member. */
  datatype Turn = Turn(parallel: bool, index: nat)

  function RenderTurn(t: Turn): string {
    (if t.parallel then ".parallel[" else ".sequence[") + Digits(t.index) + "]"
  }

  function Render(turns: seq<Turn>): string {
    if turns == [] then "" else RenderTurn(turns[0]) + Render(turns[1..])
  }

  function Navigate(p: Plan, turns: seq<Turn>): Option<Plan> {
    if turns == [] then Some(p)
    else if p.Agent? || p.Parallel? != turns[0].parallel || turns[0].index >= |p.members| then None
    else Navigate(p.members[turns[0].index], turns[1..])
  }

  lemma ChildTurn(path: string, p: Plan, i: nat, rest: string)
    requires !p.Agent?
    ensures ChildPath(path, p, i) + rest == path + (RenderTurn(Turn(p.Parallel?, i)) + rest)
  {
  }

  /** Every leaf's path spells the turns that lead to its agent. */
  lemma {:induction false} LeafLeadsBack(p: Plan, path: string, leaf: Leaf) returns (turns: seq<Turn>)
    requires leaf in Leaves(p, path)
    ensures Navigate(p, turns) == Some(Agent(leaf.goal)) && leaf.path == path + Render(turns)
    decreases p
  {
    if p.Agent? {
      turns := [];
      assert path + "" == path;
    } else {
      var i := MemberOf(p, path, |p.members|, leaf);
      var rest := LeafLeadsBack(p.members[i], ChildPath(path, p, i), leaf);
      turns := [Turn(p.Parallel?, i)] + rest;
      assert turns[1..] == rest;
      ChildTurn(path, p, i, Render(rest));
    }
  }

  /** And every agent the plan leads to is a leaf under exactly that path. */
  lemma {:induction false} AgentIsLeaf(p: Plan, path: string, turns: seq<Turn>, goal: string)
    requires Navigate(p, turns) == Some(Agent(goal))
    ensures Leaf(goal, path + Render(turns)) in Leaves(p, path)
    decreases |turns|
  {
    if turns == [] {
      assert path + "" == path;
    } else {
      var i := turns[0].index;
      AgentIsLeaf(p.members[i], ChildPath(path, p, i), turns[1..], goal);
      ChildTurn(path, p, i, Render(turns[1..]));
      MemberLeaf(p, path, |p.members|, i, Leaf(goal, path + Render(turns)));
    }
  }

  lemma {:induction false} MemberLeaf(p: Plan, path: string, n: nat, i: nat, leaf: Leaf)
    requires !p.Agent? && i < n <= |p.members| && leaf in Leaves(p.members[i], ChildPath(path, p, i))
    ensures leaf in LeavesOf(p, path, n)
    decreases n
  {
    if i < n - 1 { MemberLeaf(p, path, n - 1, i, leaf); }
  }

  /** Sibling paths cannot both be prefixes of one path: the bracket closes each index. */
  lemma SiblingsDiffer(path: string, p: Plan, i: nat, j: nat, long: string)
    requires ChildPath(path, p, i) <= long && ChildPath(path, p, j) <= long
    ensures i == j
  {
    var stem := path + (if p.Sequence? then ".sequence[" else ".parallel[");
    var a, b, rest := Digits(i), Digits(j), long[|stem|..];
    assert ChildPath(path, p, i) == stem + (a + "]") && ChildPath(path, p, j) == stem + (b + "]");
    assert a + "]" <= rest by { assert forall k :: 0 <= k < |a + "]"| ==> ChildPath(path, p, i)[|stem| + k] == (a + "]")[k]; }
    assert b + "]" <= rest by { assert forall k :: 0 <= k < |b + "]"| ==> ChildPath(path, p, j)[|stem| + k] == (b + "]")[k]; }
    Closed(a, b, rest);
    NumberOfDigits(i);
    NumberOfDigits(j);
  }

  lemma Closed(a: string, b: string, rest: string)
    requires AllDigits(a) && AllDigits(b) && a + "]" <= rest && b + "]" <= rest
    ensures a == b
  {
    assert rest[|a|] == (a + "]")[|a|] == ']' && rest[|b|] == (b + "]")[|b|] == ']';
    assert forall k :: 0 <= k < |a| ==> rest[k] == (a + "]")[k] == a[k];
    assert forall k :: 0 <= k < |b| ==> rest[k] == (b + "]")[k] == b[k];
  }

  function Paths(leaves: seq<Leaf>): (ps: seq<string>)
    ensures |ps| == |leaves| && forall i :: 0 <= i < |ps| ==> ps[i] == leaves[i].path
  {
    seq(|leaves|, i requires 0 <= i < |leaves| => leaves[i].path)
  }

  /** No two leaves of a plan share a path. */
  lemma {:induction false} OwnPaths(p: Plan, path: string)
    ensures Distinct(Paths(Leaves(p, path)))
    decreases p
  {
    if p.Agent? {
    } else {
      OwnPathsOf(p, path, |p.members|);
    }
  }

  lemma {:induction false} OwnPathsOf(p: Plan, path: string, n: nat)
    requires !p.Agent? && n <= |p.members|
    ensures Distinct(Paths(LeavesOf(p, path, n)))
    decreases p, n
  {
    if n > 0 {
      var child := ChildPath(path, p, n - 1);
      var a, b := LeavesOf(p, path, n - 1), Leaves(p.members[n - 1], child);
      OwnPathsOf(p, path, n - 1);
      OwnPaths(p.members[n - 1], child);
      forall x, y | x in a && y in b ensures x.path != y.path {
        var i := MemberOf(p, path, n - 1, x);
        LeafPaths(p.members[n - 1], child, y);
        if x.path == y.path { SiblingsDiffer(path, p, i, n - 1, x.path); }
      }
      PathsConcat(a, b);
    }
  }

  lemma PathsConcat(a: seq<Leaf>, b: seq<Leaf>)
    requires Distinct(Paths(a)) && Distinct(Paths(b)) && forall x, y :: x in a && y in b ==> x.path != y.path
    ensures Distinct(Paths(a + b))
  {
    var c := Paths(a + b);
    forall i, j | Pos(c, i) && Pos(c, j) && i < j ensures c[i] != c[j] {
      if j < |a| {
        DistinctAt(Paths(a), i, j);
      } else if i >= |a| {
        DistinctAt(Paths(b), i - |a|, j - |a|);
      } else {
        assert a[i] in a && b[j - |a|] in b;
      }
    }
  }

  // ---- every execution ---------------------------------------------------------------------------

  lemma {:induction false} ReadyIsLeaf(p: Plan, path: string, calls: Calls<Leaf>, leaf: Leaf)
    requires Ready(p, path, calls, leaf)
    ensures leaf in Leaves(p, path)
    decreases p
  {
    if !p.Agent? { var i := ReadyMember(p, path, |p.members|, calls, leaf); }
  }

  lemma {:induction false} ReadyMember(p: Plan, path: string, n: nat, calls: Calls<Leaf>, leaf: Leaf) returns (i: nat)
    requires !p.Agent? && n <= |p.members| && ReadyIn(p, path, n, calls, leaf)
    ensures i < n && Ready(p.members[i], ChildPath(path, p, i), calls, leaf)
    ensures leaf in Leaves(p.members[i], ChildPath(path, p, i)) && leaf in LeavesOf(p, path, n)
    ensures p.Sequence? ==> AllDone(LeavesOf(p, path, i), calls)
    decreases p, n
  {
    if ReadyIn(p, path, n - 1, calls, leaf) {
      i := ReadyMember(p, path, n - 1, calls, leaf);
    } else {
      i := n - 1;
      ReadyIsLeaf(p.members[i], ChildPath(path, p, i), calls, leaf);
    }
  }

  /** A ready leaf finds everything it must follow finished. */
  lemma {:induction false} ReadyWaited(p: Plan, path: string, calls: Calls<Leaf>, a: Leaf, b: Leaf)
    requires Ready(p, path, calls, b) && Follows(p, path, a, b)
    ensures Finished(calls, a)
    decreases p
  {
    var i := ReadyMember(p, path, |p.members|, calls, b);
    FollowsMember(p, path, |p.members|, a, b, i, calls);
  }

  lemma {:induction false} FollowsMember(p: Plan, path: string, n: nat, a: Leaf, b: Leaf, i: nat, calls: Calls<Leaf>)
    requires !p.Agent? && n <= |p.members| && FollowsIn(p, path, n, a, b)
    requires i < |p.members| && Ready(p.members[i], ChildPath(path, p, i), calls, b)
    requires p.Sequence? ==> AllDone(LeavesOf(p, path, i), calls)
    ensures Finished(calls, a)
    decreases p, n
  {
    var child := ChildPath(path, p, n - 1);
    ReadyIsLeaf(p.members[i], ChildPath(path, p, i), calls, b);
    LeafPaths(p.members[i], ChildPath(path, p, i), b);
    if FollowsIn(p, path, n - 1, a, b) {
      FollowsMember(p, path, n - 1, a, b, i, calls);
    } else if Follows(p.members[n - 1], child, a, b) {
      FollowsLeaf(p.members[n - 1], child, a, b);
      LeafPaths(p.members[n - 1], child, b);
      SiblingsDiffer(path, p, i, n - 1, b.path);
      ReadyWaited(p.members[i], child, calls, a, b);
    } else {
      LeafPaths(p.members[n - 1], child, b);
      SiblingsDiffer(path, p, i, n - 1, b.path);
      var k :| 0 <= k < |LeavesOf(p, path, n - 1)| && LeavesOf(p, path, n - 1)[k] == a;
      assert Finished(calls, LeavesOf(p, path, i)[k]);
    }
  }

  lemma {:induction false} FollowsLeaf(p: Plan, path: string, a: Leaf, b: Leaf)
    requires Follows(p, path, a, b)
    ensures b in Leaves(p, path)
    decreases p
  {
    FollowsLeafIn(p, path, |p.members|, a, b);
  }

  lemma {:induction false} FollowsLeafIn(p: Plan, path: string, n: nat, a: Leaf, b: Leaf)
    requires !p.Agent? && n <= |p.members| && FollowsIn(p, path, n, a, b)
    ensures b in LeavesOf(p, path, n)
    decreases p, n
  {
    if FollowsIn(p, path, n - 1, a, b) {
      FollowsLeafIn(p, path, n - 1, a, b);
    } else if Follows(p.members[n - 1], ChildPath(path, p, n - 1), a, b) {
      FollowsLeaf(p.members[n - 1], ChildPath(path, p, n - 1), a, b);
    }
  }

  /** In every execution, only leaves start, and a leaf starts only after everything it follows has finished. */
  lemma {:induction false} SequencesAreRespected(p: Plan, events: seq<Event<Leaf>>, a: Leaf, b: Leaf)
    requires Execution(Lower(p, "root"), events)
    requires b in After(events)
    ensures b in Leaves(p, "root")
    ensures Follows(p, "root", a, b) ==> Finished(After(events), a)
  {
    var init, event := events[..|events| - 1], events[|events| - 1];
    HappenExtends(Lower(p, "root"), After(init), event);
    if b in After(init) {
      SequencesAreRespected(p, init, a, b);
    } else {
      EnabledLowered(p, "root", After(init), [], b);
      ReadyIsLeaf(p, "root", After(init), b);
      if Follows(p, "root", a, b) { ReadyWaited(p, "root", After(init), a, b); }
    }
  }

  /** In every execution, the flow's output is the leaf results in plan order, as soon as and only when all finished. */
  lemma OutputFollowsPlan(p: Plan, events: seq<Event<Leaf>>)
    requires Execution(Lower(p, "root"), events)
    ensures Eval(Lower(p, "root"), After(events), []) ==
            if AllDone(Leaves(p, "root"), After(events)) then Some(List(Answers(Leaves(p, "root"), After(events)))) else None
  {
    EvalLowered(p, "root", After(events), []);
  }

  /** No execution gets stuck: with nothing running and work left, some leaf can start. */
  lemma NeverStuck(p: Plan, events: seq<Event<Leaf>>) returns (leaf: Leaf)
    requires Execution(Lower(p, "root"), events)
    requires forall s :: s in After(events) ==> After(events)[s].Done?
    requires !AllDone(Leaves(p, "root"), After(events))
    ensures Enabled(Lower(p, "root"), After(events), [], leaf)
  {
    leaf := SomeReady(p, "root", After(events));
    EnabledLowered(p, "root", After(events), [], leaf);
  }

  lemma {:induction false} SomeReady(p: Plan, path: string, calls: Calls<Leaf>) returns (leaf: Leaf)
    requires forall s :: s in calls ==> calls[s].Done?
    requires !AllDone(Leaves(p, path), calls)
    ensures Ready(p, path, calls, leaf)
    decreases p
  {
    if p.Agent? {
      leaf := Leaf(p.goal, path);
    } else {
      leaf := SomeReadyIn(p, path, |p.members|, calls);
    }
  }

  lemma {:induction false} SomeReadyIn(p: Plan, path: string, n: nat, calls: Calls<Leaf>) returns (leaf: Leaf)
    requires !p.Agent? && n <= |p.members|
    requires forall s :: s in calls ==> calls[s].Done?
    requires !AllDone(LeavesOf(p, path, n), calls)
    ensures ReadyIn(p, path, n, calls, leaf)
    decreases p, n
  {
    var child := ChildPath(path, p, n - 1);
    DoneConcat(LeavesOf(p, path, n - 1), Leaves(p.members[n - 1], child), calls);
    if AllDone(LeavesOf(p, path, n - 1), calls) {
      leaf := SomeReady(p.members[n - 1], child, calls);
    } else {
      leaf := SomeReadyIn(p, path, n - 1, calls);
    }
  }
}
