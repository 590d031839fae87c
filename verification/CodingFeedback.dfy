/**
 * flows/coding/feedback.ts: recorders write the deferred store and then look for the pair "implementations ready" and
 * "first actionable receipt". Every store access is one step; any interleaving and any crash-and-retry is a run.
 */
module CodingFeedback {
  import opened Wrappers
  import opened CodingSchema
  import opened CodingWorkflow
  import opened CodingCorrection

  /** The first pass (`stages`), or a recheck of refreshed groups (`repairChecks`), which does not order its gates. */
  datatype Mode = Observe | Recheck(refreshed: seq<ValidatedChange>)

  /** The write-once deferred slots of one execution. */
  datatype Store = Store(
    ready: bool, first: Option<Receipt>, gated: map<nat, ValidatedChange>, checked: map<(nat, string), Receipt>)

  datatype Recorder = Gate(index: nat) | SlowCheck(index: nat, check: Check)
  datatype Payload = GatePayload(group: ValidatedChange) | SlowPayload(implementation: Implementation, receipt: Receipt)

  /** `began` is the store when gathering started; `done` and `current` are what the reads have collected so far. */
  datatype Gathering = Gathering(
    trigger: Receipt, began: Store, done: seq<ValidatedChange>, current: Option<ValidatedChange>, slow: nat)

  datatype Phase =
    | Validate | WriteOwn | WriteMarker | ReadReady | ReadFirst(ready: bool) | Gather(g: Gathering)
    | Finished
    | Rejected(rejection: Refusal)                // refused before any write
    | Refusing(error: Refusal, ended: Store)      // refused while gathering
    | Raised(result: Result, began: Store, ended: Store)

  datatype Proc = Proc(payload: Payload, phase: Phase)
  datatype State = State(store: Store, procs: map<Recorder, Proc>)
  datatype Move = Begin(payload: Payload) | Advance | Restart
  datatype Step = Step(r: Recorder, move: Move)

  const EMPTY: State := State(Store(false, None, map[], map[]), map[])

  predicate Terminal(phase: Phase) {
    phase.Finished? || phase.Rejected? || phase.Refusing? || phase.Raised?
  }

  function Start(r: Recorder): Phase {
    if r.Gate? then WriteOwn else Validate
  }

  // ---- one recorder ------------------------------------------------------------------------------

  function FindCheck(checks: seq<Check>, id: string): (r: Option<Check>)
    ensures r.Some? ==> r.value in checks && r.value.id == id
  {
    if checks == [] then None else if checks[0].id == id then Some(checks[0]) else FindCheck(checks[1..], id)
  }

  /** The findings of one gathered receipt, looked up by the check it names. */
  function Verdict(plan: Plan, i: nat, implementation: Implementation, r: Receipt): Outcome<seq<Finding>>
    requires i < |plan.changes|
  {
    var check := FindCheck(plan.changes[i].checks, r.checkId);
    if check.None? then Refused(InvalidReceipt(UnplannedCheck)) else ReceiptFindings(plan, i, implementation, check.value, r)
  }

  function ReceiptsFindings(plan: Plan, i: nat, implementation: Implementation, rs: seq<Receipt>): Outcome<seq<Finding>>
    requires i < |plan.changes|
  {
    if rs == [] then Ok([])
    else
      var rest := ReceiptsFindings(plan, i, implementation, rs[..|rs| - 1]);
      if rest.Refused? then rest
      else
        var last := Verdict(plan, i, implementation, rs[|rs| - 1]);
        if last.Refused? then last else Ok(rest.value + last.value)
  }

  function AllFindings(plan: Plan, changes: seq<ValidatedChange>): Outcome<seq<Finding>>
    requires |changes| <= |plan.changes|
  {
    if changes == [] then Ok([])
    else
      var n := |changes| - 1;
      var rest := AllFindings(plan, changes[..n]);
      if rest.Refused? then rest
      else
        var last := ReceiptsFindings(plan, n, changes[n].implementation, changes[n].receipts);
        if last.Refused? then last else Ok(rest.value + last.value)
  }

  predicate Holds(changes: seq<ValidatedChange>, trigger: Receipt) {
    exists i :: 0 <= i < |changes| && trigger in changes[i].receipts
  }

  function Judge(plan: Plan, store: Store, g: Gathering): Phase
    requires |g.done| == |plan.changes|
  {
    var findings := AllFindings(plan, g.done);
    if findings.Refused? then Refusing(findings.error, store)
    else if findings.value == [] || !Holds(g.done, g.trigger) then Refusing(InvalidReceipt(NoTrigger), store)
    else Raised(Result(ChangesRequested, g.done, findings.value), g.began, store)
  }

  function Slows(plan: Plan, i: nat): seq<Check>
    requires i < |plan.changes|
  {
    OfTier(plan.changes[i].checks, Slow)
  }

  /** One read of the gathering loop, or its final judgement. */
  function GatherStep(plan: Plan, store: Store, g: Gathering): Phase
    requires |g.done| <= |plan.changes|
  {
    var i := |g.done|;
    if i == |plan.changes| then Judge(plan, store, g)
    else if g.current.None? then
      if i !in store.gated then Refusing(InvalidReceipt(MissingImplementation), store)
      else if store.gated[i].implementation.change != plan.changes[i].id then Refusing(InvalidReceipt(Reordered), store)
      else Gather(g.(current := Some(store.gated[i]), slow := 0))
    else if g.slow < |Slows(plan, i)| then
      var key := (i, Slows(plan, i)[g.slow].id);
      var group := g.current.value;
      var more := if key in store.checked then group.(receipts := group.receipts + [store.checked[key]]) else group;
      Gather(g.(current := Some(more), slow := g.slow + 1))
    else Gather(g.(done := g.done + [g.current.value], current := None, slow := 0))
  }

  function PhaseAfter(plan: Plan, store: Store, r: Recorder, p: Proc): Phase {
    match p.phase
    case Validate =>
      if r.Gate? || p.payload.GatePayload? then p.phase
      else
        var findings := ReceiptFindings(plan, r.index, p.payload.implementation, r.check, p.payload.receipt);
        if findings.Refused? then Rejected(findings.error)
        else if r.check.tier != Slow || !ReceiptMatches(p.payload.implementation, r.check, p.payload.receipt)
        then Rejected(InvalidReceipt(NotExact))
        else WriteOwn
    case WriteOwn => WriteMarker
    case WriteMarker => ReadReady
    case ReadReady => ReadFirst(store.ready)
    case ReadFirst(ready) =>
      if !ready || store.first.None? then Finished
      else Gather(Gathering(store.first.value, store, [], None, 0))
    case Gather(g) => if |g.done| <= |plan.changes| then GatherStep(plan, store, g) else p.phase
    case _ => p.phase
  }

  /** A write goes through only into an empty slot. */
  function StoreAfter(plan: Plan, store: Store, r: Recorder, p: Proc): Store {
    match (p.phase, p.payload)
    case (WriteOwn, GatePayload(group)) =>
      if r.index in store.gated then store else store.(gated := store.gated[r.index := group])
    case (WriteOwn, SlowPayload(_, receipt)) =>
      if r.Gate? || (r.index, r.check.id) in store.checked then store
      else store.(checked := store.checked[(r.index, r.check.id) := receipt])
    case (WriteMarker, GatePayload(_)) =>
      if r.index + 1 == |plan.changes| then store.(ready := true) else store
    case (WriteMarker, SlowPayload(implementation, receipt)) =>
      if r.SlowCheck? && store.first.None? && Actionable(plan, r, p.payload) then store.(first := Some(receipt)) else store
    case _ => store
  }

  predicate Actionable(plan: Plan, r: Recorder, payload: Payload) {
    && r.SlowCheck? && payload.SlowPayload?
    && var findings := ReceiptFindings(plan, r.index, payload.implementation, r.check, payload.receipt);
       findings.Ok? && findings.value != []
  }

  // ---- runs --------------------------------------------------------------------------------------

  function Apply(plan: Plan, s: State, step: Step): State {
    match step.move
    case Begin(payload) => s.(procs := s.procs[step.r := Proc(payload, Start(step.r))])
    case Advance =>
      if step.r !in s.procs then s
      else
        var p := s.procs[step.r];
        State(StoreAfter(plan, s.store, step.r, p), s.procs[step.r := p.(phase := PhaseAfter(plan, s.store, step.r, p))])
    case Restart =>
      if step.r !in s.procs then s
      else s.(procs := s.procs[step.r := s.procs[step.r].(phase := Start(step.r))])
  }

  predicate Returned(s: State, r: Recorder) {
    r in s.procs && s.procs[r].phase.Finished?
  }

  /** A recheck hands on a saved exact receipt instead of running the check; a check that runs may return anything. */
  predicate Reused(group: ValidatedChange, check: Check, receipt: Receipt) {
    var saved := FindExact(group.implementation, check, group.receipts);
    saved.Some? ==> receipt == saved.value
  }

  predicate AllReused(group: ValidatedChange, checks: seq<Check>, receipts: seq<Receipt>) {
    forall k :: 0 <= k < |checks| && k < |receipts| ==> Reused(group, checks[k], receipts[k])
  }

  /** The parent a gate is called with: in the first pass, the head returned by the gate before it. */
  ghost predicate GateCalled(plan: Plan, mode: Mode, s: State, i: nat, group: ValidatedChange) {
    && i < |plan.changes|
    && match mode
       case Observe =>
         if i == 0 then Gated(plan.changes[i], plan.base, group)
         else
           && Returned(s, Gate(i - 1)) && s.procs[Gate(i - 1)].payload.GatePayload?
           && Gated(plan.changes[i], s.procs[Gate(i - 1)].payload.group.implementation.head, group)
       case Recheck(refreshed) =>
         && i < |refreshed| && group.implementation == refreshed[i].implementation
         && Gated(plan.changes[i], refreshed[i].implementation.parent, group)
         && AllReused(refreshed[i], OfTier(plan.changes[i].checks, Fast), group.receipts)
  }

  /** A slow check that runs may return any receipt at all; only the implementation it is given is fixed. */
  ghost predicate SlowCalled(
    plan: Plan, mode: Mode, s: State, i: nat, check: Check, implementation: Implementation, receipt: Receipt)
  {
    && i < |plan.changes| && check in Slows(plan, i)
    && match mode
       case Observe =>
         && Returned(s, Gate(i)) && s.procs[Gate(i)].payload.GatePayload?
         && implementation == s.procs[Gate(i)].payload.group.implementation
       case Recheck(refreshed) =>
         i < |refreshed| && implementation == refreshed[i].implementation && Reused(refreshed[i], check, receipt)
  }

  ghost predicate Allowed(plan: Plan, mode: Mode, s: State, step: Step) {
    match step.move
    case Begin(payload) =>
      && step.r !in s.procs
      && (match step.r
          case Gate(i) => payload.GatePayload? && GateCalled(plan, mode, s, i, payload.group)
          case SlowCheck(i, c) => payload.SlowPayload? && SlowCalled(plan, mode, s, i, c, payload.implementation, payload.receipt))
    case Advance => step.r in s.procs && !Terminal(s.procs[step.r].phase)
    case Restart => step.r in s.procs && !Terminal(s.procs[step.r].phase)
  }

  ghost function After(plan: Plan, steps: seq<Step>): State {
    if steps == [] then EMPTY else Apply(plan, After(plan, steps[..|steps| - 1]), steps[|steps| - 1])
  }

  /** A run: each step is allowed in the state the earlier ones led to. */
  ghost predicate Run(plan: Plan, mode: Mode, steps: seq<Step>) {
    steps == [] ||
    (Run(plan, mode, steps[..|steps| - 1]) && Allowed(plan, mode, After(plan, steps[..|steps| - 1]), steps[|steps| - 1]))
  }

  // ---- what a gathered result is -----------------------------------------------------------------

  ghost predicate Grows(a: Store, b: Store) {
    && (a.ready ==> b.ready)
    && (a.first.Some? ==> b.first == a.first)
    && (forall i :: i in a.gated ==> i in b.gated && b.gated[i] == a.gated[i])
    && (forall k :: k in a.checked ==> k in b.checked && b.checked[k] == a.checked[k])
  }

  /** `rs` extends `base` by receipts of `checks` in order: all those stored in `began`, none missing from `ended`. */
  ghost predicate Cut(checks: seq<Check>, i: nat, began: Store, ended: Store, base: seq<Receipt>, rs: seq<Receipt>) {
    if checks == [] then rs == base
    else
      var key := (i, checks[|checks| - 1].id);
      || (key in ended.checked && rs != [] && rs[|rs| - 1] == ended.checked[key]
          && Cut(checks[..|checks| - 1], i, began, ended, base, rs[..|rs| - 1]))
      || (key !in began.checked && Cut(checks[..|checks| - 1], i, began, ended, base, rs))
  }

  ghost predicate GroupCut(plan: Plan, began: Store, ended: Store, i: nat, group: ValidatedChange) {
    && i < |plan.changes| && i in ended.gated
    && group.implementation == ended.gated[i].implementation
    && Cut(Slows(plan, i), i, began, ended, ended.gated[i].receipts, group.receipts)
  }

  ghost predicate Faithful(plan: Plan, began: Store, ended: Store, changes: seq<ValidatedChange>) {
    && |changes| == |plan.changes|
    && forall i :: 0 <= i < |changes| ==> GroupCut(plan, began, ended, i, changes[i])
  }

  lemma {:induction false} CutGrows(
    checks: seq<Check>, i: nat, began: Store, ended: Store, later: Store, base: seq<Receipt>, rs: seq<Receipt>)
    requires Cut(checks, i, began, ended, base, rs) && Grows(ended, later)
    ensures Cut(checks, i, began, later, base, rs)
  {
    if checks != [] {
      var init, key := checks[..|checks| - 1], (i, checks[|checks| - 1].id);
      if key in ended.checked && rs != [] && rs[|rs| - 1] == ended.checked[key]
         && Cut(init, i, began, ended, base, rs[..|rs| - 1]) {
        CutGrows(init, i, began, ended, later, base, rs[..|rs| - 1]);
      } else {
        CutGrows(init, i, began, ended, later, base, rs);
      }
    }
  }

  /** Nothing else gets in: a collected receipt is the gate's own or stored under one of these checks. */
  lemma {:induction false} CutSound(
    checks: seq<Check>, i: nat, began: Store, ended: Store, base: seq<Receipt>, rs: seq<Receipt>, r: Receipt)
    requires Cut(checks, i, began, ended, base, rs) && r in rs
    ensures r in base || exists c :: c in checks && (i, c.id) in ended.checked && ended.checked[(i, c.id)] == r
  {
    if checks != [] {
      var init, c := checks[..|checks| - 1], checks[|checks| - 1];
      assert checks == init + [c];
      if (i, c.id) in ended.checked && rs != [] && rs[|rs| - 1] == ended.checked[(i, c.id)]
         && Cut(init, i, began, ended, base, rs[..|rs| - 1]) {
        assert rs == rs[..|rs| - 1] + [rs[|rs| - 1]];
        if r in rs[..|rs| - 1] {
          CutSound(init, i, began, ended, base, rs[..|rs| - 1], r);
        } else {
          assert c in checks;
        }
      } else {
        CutSound(init, i, began, ended, base, rs, r);
      }
    }
  }

  /** Nothing is lost: a receipt stored before gathering began is collected. */
  lemma {:induction false} CutComplete(
    checks: seq<Check>, i: nat, began: Store, ended: Store, base: seq<Receipt>, rs: seq<Receipt>, c: Check)
    requires Cut(checks, i, began, ended, base, rs) && Grows(began, ended)
    requires c in checks && (i, c.id) in began.checked
    ensures began.checked[(i, c.id)] in rs
  {
    var init, last := checks[..|checks| - 1], checks[|checks| - 1];
    assert checks == init + [last];
    if (i, last.id) in ended.checked && rs != [] && rs[|rs| - 1] == ended.checked[(i, last.id)]
       && Cut(init, i, began, ended, base, rs[..|rs| - 1]) {
      if last.id != c.id { CutComplete(init, i, began, ended, base, rs[..|rs| - 1], c); }
    } else {
      CutComplete(init, i, began, ended, base, rs, c);
    }
  }
}
