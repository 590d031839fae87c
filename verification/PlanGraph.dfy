/**
 * The node language flows are planned in, with the execution rules of the interpreter: `Bind` (bindPlanned) is a data
 * dependency only, `AndThen` gates the whole next subtree, and members of `All` run concurrently. An action call is
 * identified by its dispatch site `K`.
 */
module PlanGraph {
  import opened Wrappers

  datatype Val = Str(text: string) | List(items: seq<Val>)

  /** The pure mappers the modelled flows use. */
  datatype Op = Wrap | Flatten

  /** `Ref(k)` names the result of the k-th enclosing `Bind`, counted from the innermost. */
  datatype Node<K(!new)> =
    | Succeed(value: Val)
    | Ref(up: nat)
    | Call(site: K, refs: seq<nat>)
    | Map(op: Op, first: Node<K>)
    | All(members: seq<Node<K>>)
    | Bind(first: Node<K>, body: Node<K>)
    | AndThen(first: Node<K>, next: Node<K>)

  datatype Status = Running | Done(result: string)

  /** Which action calls have started, and the results of those that finished. */
  type Calls<K(!new)> = map<K, Status>

  type Env = seq<Option<Val>>

  function Flat(vs: seq<Val>): seq<Val> {
    if vs == [] then []
    else Flat(vs[..|vs| - 1]) + (if vs[|vs| - 1].List? then vs[|vs| - 1].items else [])
  }

  function ApplyOp(op: Op, v: Val): Val {
    match op
    case Wrap => List([v])
    case Flatten => if v.List? then List(Flat(v.items)) else v
  }

  function At(env: Env, k: nat): Option<Val> {
    if k < |env| then env[k] else None
  }

  /** The value a node has settled with, given the calls finished so far. */
  function Eval<K(!new)>(node: Node<K>, calls: Calls<K>, env: Env): Option<Val>
    decreases node
  {
    match node
    case Succeed(v) => Some(v)
    case Ref(k) => At(env, k)
    case Call(site, _) => if site in calls && calls[site].Done? then Some(Str(calls[site].result)) else None
    case Map(op, first) =>
      var v := Eval(first, calls, env);
      if v.Some? then Some(ApplyOp(op, v.value)) else None
    case All(members) =>
      var vs := EvalAll(members, calls, env);
      if vs.Some? then Some(List(vs.value)) else None
    case Bind(first, body) =>
      var v := Eval(first, calls, env);
      if v.Some? then Eval(body, calls, [v] + env) else None
    case AndThen(first, next) => if Eval(first, calls, env).Some? then Eval(next, calls, env) else None
  }

  function EvalAll<K(!new)>(members: seq<Node<K>>, calls: Calls<K>, env: Env): Option<seq<Val>>
    decreases members
  {
    if members == [] then Some([])
    else
      var init := EvalAll(members[..|members| - 1], calls, env);
      var last := Eval(members[|members| - 1], calls, env);
      if init.Some? && last.Some? then Some(init.value + [last.value]) else None
  }

  /** The interpreter may start the call at `site` now. */
  predicate Enabled<K(!new)>(node: Node<K>, calls: Calls<K>, env: Env, site: K)
    decreases node
  {
    match node
    case Succeed(_) => false
    case Ref(_) => false
    case Call(s, refs) => s == site && site !in calls && forall k :: k in refs ==> At(env, k).Some?
    case Map(_, first) => Enabled(first, calls, env, site)
    case All(members) => exists m :: m in members && Enabled(m, calls, env, site)
    case Bind(first, body) =>
      Enabled(first, calls, env, site) || Enabled(body, calls, [Eval(first, calls, env)] + env, site)
    case AndThen(first, next) =>
      Enabled(first, calls, env, site) || (Eval(first, calls, env).Some? && Enabled(next, calls, env, site))
  }

  // ---- executions ------------------------------------------------------------------------------

  datatype Event<K(!new)> = Start(site: K) | Finish(site: K, result: string)

  ghost predicate Possible<K(!new)>(node: Node<K>, calls: Calls<K>, event: Event<K>) {
    match event
    case Start(site) => Enabled(node, calls, [], site)
    case Finish(site, _) => site in calls && calls[site].Running?
  }

  function Happen<K(!new)>(calls: Calls<K>, event: Event<K>): Calls<K> {
    match event
    case Start(site) => calls[site := Running]
    case Finish(site, result) => calls[site := Done(result)]
  }

  ghost function After<K(!new)>(events: seq<Event<K>>): Calls<K> {
    if events == [] then map[] else Happen(After(events[..|events| - 1]), events[|events| - 1])
  }

  /** An execution: any interleaving of starts the graph allows and finishes of running calls, with any results. */
  ghost predicate Execution<K(!new)>(node: Node<K>, events: seq<Event<K>>) {
    events == [] ||
    (Execution(node, events[..|events| - 1]) && Possible(node, After(events[..|events| - 1]), events[|events| - 1]))
  }

  predicate Finished<K(!new)>(calls: Calls<K>, site: K) {
    site in calls && calls[site].Done?
  }

  /** Settled results never change as calls start and finish. */
  ghost predicate Extends<K(!new)>(a: Calls<K>, b: Calls<K>) {
    forall s :: s in a ==> s in b && (a[s].Done? ==> b[s] == a[s])
  }

  lemma HappenExtends<K(!new)>(node: Node<K>, calls: Calls<K>, event: Event<K>)
    requires Possible(node, calls, event)
    ensures Extends(calls, Happen(calls, event))
  {
    if event.Start? { EnabledIsNew(node, calls, [], event.site); }
  }

  lemma {:induction false} EnabledIsNew<K(!new)>(node: Node<K>, calls: Calls<K>, env: Env, site: K)
    requires Enabled(node, calls, env, site)
    ensures site !in calls
    decreases node
  {
    match node
    case Call(_, _) =>
    case Map(_, first) => EnabledIsNew(first, calls, env, site);
    case All(members) =>
      var m :| m in members && Enabled(m, calls, env, site);
      EnabledIsNew(m, calls, env, site);
    case Bind(first, body) =>
      if Enabled(first, calls, env, site) {
        EnabledIsNew(first, calls, env, site);
      } else {
        EnabledIsNew(body, calls, [Eval(first, calls, env)] + env, site);
      }
    case AndThen(first, next) =>
      if Enabled(first, calls, env, site) {
        EnabledIsNew(first, calls, env, site);
      } else {
        EnabledIsNew(next, calls, env, site);
      }
  }

  /** The call sites of a node, in planning order. */
  function Sites<K(!new)>(node: Node<K>): seq<K>
    decreases node
  {
    match node
    case Succeed(_) => []
    case Ref(_) => []
    case Call(site, _) => [site]
    case Map(_, first) => Sites(first)
    case All(members) => SitesAll(members)
    case Bind(first, body) => Sites(first) + Sites(body)
    case AndThen(first, next) => Sites(first) + Sites(next)
  }

  function SitesAll<K(!new)>(members: seq<Node<K>>): seq<K>
    decreases members
  {
    if members == [] then [] else SitesAll(members[..|members| - 1]) + Sites(members[|members| - 1])
  }

  lemma BindSites<K(!new)>(first: Node<K>, body: Node<K>, site: K)
    ensures site in Sites(Bind(first, body)) <==> site in Sites(first) || site in Sites(body)
  {
  }

  lemma {:induction false} MemberSites<K(!new)>(members: seq<Node<K>>, m: Node<K>, site: K)
    requires m in members && site in Sites(m)
    ensures site in SitesAll(members)
    decreases |members|
  {
    var n := |members| - 1;
    assert members == members[..n] + [members[n]];
    if m in members[..n] { MemberSites(members[..n], m, site); }
  }

  /** Only a node's own calls can ever start. */
  lemma {:induction false} EnabledIsSite<K(!new)>(node: Node<K>, calls: Calls<K>, env: Env, site: K)
    requires Enabled(node, calls, env, site)
    ensures site in Sites(node)
    decreases node
  {
    match node
    case Call(_, _) =>
    case Map(_, first) => EnabledIsSite(first, calls, env, site);
    case All(members) =>
      var m :| m in members && Enabled(m, calls, env, site);
      EnabledIsSite(m, calls, env, site);
      MemberSites(members, m, site);
    case Bind(first, body) =>
      if Enabled(first, calls, env, site) {
        EnabledIsSite(first, calls, env, site);
      } else {
        EnabledIsSite(body, calls, [Eval(first, calls, env)] + env, site);
      }
    case AndThen(first, next) =>
      if Enabled(first, calls, env, site) {
        EnabledIsSite(first, calls, env, site);
      } else {
        EnabledIsSite(next, calls, env, site);
      }
  }

  lemma {:induction false} StartedIsSite<K(!new)>(node: Node<K>, events: seq<Event<K>>, site: K)
    requires Execution(node, events) && site in After(events)
    ensures site in Sites(node)
  {
    var init, event := events[..|events| - 1], events[|events| - 1];
    if site in After(init) {
      StartedIsSite(node, init, site);
    } else {
      EnabledIsSite(node, After(init), [], site);
    }
  }
}
