/** A recorder that is not restarted ends: its moves are bounded by a number computed from the plan. */
module CodingFeedbackProgress {
  import opened CodingSchema
  import opened CodingFeedback
  import opened CodingFeedbackSafety

  /** Moves to gather the Changes from `i` on: read the gate, read each slow slot, close the group. */
  function From(plan: Plan, i: nat): nat
    requires i <= |plan.changes|
    decreases |plan.changes| - i
  {
    if i == |plan.changes| then 0 else 2 + |Slows(plan, i)| + From(plan, i + 1)
  }

  function Bound(plan: Plan): nat {
    6 + From(plan, 0)
  }

  /** The most moves this phase leaves. */
  function Left(plan: Plan, phase: Phase): int {
    match phase
    case Validate => 6 + From(plan, 0)
    case WriteOwn => 5 + From(plan, 0)
    case WriteMarker => 4 + From(plan, 0)
    case ReadReady => 3 + From(plan, 0)
    case ReadFirst(_) => 2 + From(plan, 0)
    case Gather(g) =>
      if |g.done| > |plan.changes| then 0
      else 1 + From(plan, |g.done|) - (if g.current.Some? then 1 + g.slow else 0)
    case _ => 0
  }

  /** The shape of a gathering that its invariant guarantees. */
  predicate InShape(plan: Plan, g: Gathering) {
    && |g.done| <= |plan.changes|
    && (g.current.Some? ==> |g.done| < |plan.changes| && g.slow <= |Slows(plan, |g.done|)|)
  }

  lemma GatherShrinks(plan: Plan, store: Store, g: Gathering)
    requires InShape(plan, g)
    ensures 0 <= Left(plan, GatherStep(plan, store, g)) < Left(plan, Gather(g))
  {
    var i := |g.done|;
    if i == |plan.changes| {
    } else if g.current.None? {
      ReadShrinks(plan, store, g);
    } else if g.slow < |Slows(plan, i)| {
    } else {
      assert |g.done + [g.current.value]| == i + 1;
    }
  }

  lemma ReadShrinks(plan: Plan, store: Store, g: Gathering)
    requires |g.done| < |plan.changes| && g.current.None?
    ensures 0 <= Left(plan, GatherStep(plan, store, g)) < Left(plan, Gather(g))
  {
    if |g.done| in store.gated {} else {}
  }

  /** Every move of a recorder of a run brings it closer to its end. */
  lemma AdvanceShrinks(plan: Plan, mode: Mode, store: Store, r: Recorder, p: Proc)
    requires ProcOk(plan, mode, store, r, p) && !Terminal(p.phase)
    ensures 0 <= Left(plan, PhaseAfter(plan, store, r, p)) < Left(plan, p.phase)
  {
    if p.phase.Gather? { GatherShrinks(plan, store, p.phase.g); }
  }

  function Advances(steps: seq<Step>, r: Recorder): nat {
    if steps == [] then 0
    else Advances(steps[..|steps| - 1], r) + (if steps[|steps| - 1] == Step(r, Advance) then 1 else 0)
  }

  /**
   * In every run of either pass, a recorder that was never restarted has made at most the bound's number of moves; it
   * has ended once they are used up, and until it has ended it can move.
   */
  lemma RecordersEnd(plan: Plan, mode: Mode, steps: seq<Step>, r: Recorder)
    requires ValidPlan(plan) && Run(plan, mode, steps) && Step(r, Restart) !in steps
    requires r in After(plan, steps).procs
    ensures var phase := After(plan, steps).procs[r].phase;
      && Advances(steps, r) <= Bound(plan)
      && (Advances(steps, r) == Bound(plan) ==> Terminal(phase))
      && (Terminal(phase) || Allowed(plan, mode, After(plan, steps), Step(r, Advance)))
  {
    MovesLeft(plan, mode, steps, r);
    RunKeeps(plan, mode, steps);
    var s := After(plan, steps);
    assert ProcOk(plan, mode, s.store, r, s.procs[r]);
    if !Terminal(s.procs[r].phase) { AdvanceShrinks(plan, mode, s.store, r, s.procs[r]); }
  }

  lemma {:induction false} MovesLeft(plan: Plan, mode: Mode, steps: seq<Step>, r: Recorder)
    requires ValidPlan(plan) && Run(plan, mode, steps) && Step(r, Restart) !in steps
    ensures r !in After(plan, steps).procs ==> Advances(steps, r) == 0
    ensures r in After(plan, steps).procs ==>
      0 <= Left(plan, After(plan, steps).procs[r].phase) <= Bound(plan) - Advances(steps, r)
  {
    if steps != [] {
      var init, step := steps[..|steps| - 1], steps[|steps| - 1];
      assert steps == init + [step];
      MovesLeft(plan, mode, init, r);
      if step == Step(r, Advance) {
        OwnMove(plan, mode, init, r);
      } else {
        OtherMove(plan, mode, After(plan, init), step, r);
      }
    }
  }

  lemma OwnMove(plan: Plan, mode: Mode, steps: seq<Step>, r: Recorder)
    requires ValidPlan(plan) && Run(plan, mode, steps) && Allowed(plan, mode, After(plan, steps), Step(r, Advance))
    ensures r in After(plan, steps).procs && r in Apply(plan, After(plan, steps), Step(r, Advance)).procs
    ensures 0 <= Left(plan, Apply(plan, After(plan, steps), Step(r, Advance)).procs[r].phase)
              < Left(plan, After(plan, steps).procs[r].phase)
  {
    RunKeeps(plan, mode, steps);
    var s := After(plan, steps);
    assert ProcOk(plan, mode, s.store, r, s.procs[r]);
    AdvanceShrinks(plan, mode, s.store, r, s.procs[r]);
  }

  lemma OtherMove(plan: Plan, mode: Mode, s: State, step: Step, r: Recorder)
    requires Allowed(plan, mode, s, step) && step != Step(r, Advance) && step != Step(r, Restart)
    ensures var t := Apply(plan, s, step);
      if r in s.procs then r in t.procs && t.procs[r].phase == s.procs[r].phase
      else r in t.procs ==> t.procs[r].phase == Start(r)
  {
  }
}
