/** Retried recorders, runs that end in a refusal, and exactly which rechecks have one. */
module CodingFeedbackRuns {
  import opened Wrappers
  import opened CodingSchema
  import opened CodingWorkflow
  import opened CodingCorrection
  import opened CodingFeedback
  import opened CodingFeedbackSafety

  // ---- driving a recorder ------------------------------------------------------------------------

  lemma RunSnoc(plan: Plan, mode: Mode, steps: seq<Step>, step: Step)
    requires Run(plan, mode, steps) && Allowed(plan, mode, After(plan, steps), step)
    ensures Run(plan, mode, steps + [step]) && After(plan, steps + [step]) == Apply(plan, After(plan, steps), step)
  {
    assert (steps + [step])[..|steps|] == steps;
  }

  /** One more move of a recorder that has not ended. */
  lemma Drive(plan: Plan, mode: Mode, steps: seq<Step>, r: Recorder) returns (more: seq<Step>)
    requires Run(plan, mode, steps) && r in After(plan, steps).procs && !Terminal(After(plan, steps).procs[r].phase)
    ensures Run(plan, mode, more) && After(plan, more) == Apply(plan, After(plan, steps), Step(r, Advance))
  {
    more := steps + [Step(r, Advance)];
    RunSnoc(plan, mode, steps, Step(r, Advance));
  }

  // ---- retries -----------------------------------------------------------------------------------

  /** A crash, and the recorder's way back to where its writes are done. */
  function Retry(r: Recorder): seq<Step> {
    [Step(r, Restart)] + (if r.Gate? then [] else [Step(r, Advance)]) + [Step(r, Advance), Step(r, Advance)]
  }

  /** The state in which only `r`'s phase differs. */
  ghost function InPhase(s: State, r: Recorder, phase: Phase): State
    requires r in s.procs
  {
    s.(procs := s.procs[r := s.procs[r].(phase := phase)])
  }

  /** In every run, a recorder retried after its writes repeats them all without changing the store or any other recorder. */
  lemma RetryIsHarmless(plan: Plan, mode: Mode, steps: seq<Step>, r: Recorder)
    requires ValidPlan(plan) && Run(plan, mode, steps) && r in After(plan, steps).procs
    requires var phase := After(plan, steps).procs[r].phase; phase.ReadReady? || phase.ReadFirst? || phase.Gather?
    ensures Run(plan, mode, steps + Retry(r))
    ensures After(plan, steps + Retry(r)) == InPhase(After(plan, steps), r, ReadReady)
  {
    RunKeeps(plan, mode, steps);
    WritesFindSlots(plan, mode, After(plan, steps), r);
    GoesBack(plan, mode, steps, r);
  }

  /** Started over, the recorder passes its first phases and leaves the store alone. */
  ghost predicate Replays(plan: Plan, s: State, r: Recorder)
    requires r in s.procs
  {
    && (r.SlowCheck? ==> ReplaysTo(plan, s, r, Validate, WriteOwn))
    && ReplaysTo(plan, s, r, WriteOwn, WriteMarker) && ReplaysTo(plan, s, r, WriteMarker, ReadReady)
  }

  ghost predicate ReplaysTo(plan: Plan, s: State, r: Recorder, phase: Phase, next: Phase)
    requires r in s.procs
  {
    && StoreAfter(plan, s.store, r, s.procs[r].(phase := phase)) == s.store
    && PhaseAfter(plan, s.store, r, s.procs[r].(phase := phase)) == next
  }

  lemma GoesBack(plan: Plan, mode: Mode, steps: seq<Step>, r: Recorder)
    requires Run(plan, mode, steps) && r in After(plan, steps).procs && !Terminal(After(plan, steps).procs[r].phase)
    requires Replays(plan, After(plan, steps), r)
    ensures Run(plan, mode, steps + Retry(r))
    ensures After(plan, steps + Retry(r)) == InPhase(After(plan, steps), r, ReadReady)
  {
    var begun := BackToWriting(plan, mode, steps, r);
    var back := WritesAgain(plan, mode, begun, After(plan, steps), r);
    RetryParts(steps, r);
  }

  lemma RetryParts(steps: seq<Step>, r: Recorder)
    ensures steps + [Step(r, Restart)] + (if r.Gate? then [] else [Step(r, Advance)]) + [Step(r, Advance), Step(r, Advance)]
            == steps + Retry(r)
  {
  }

  lemma BackToWriting(plan: Plan, mode: Mode, steps: seq<Step>, r: Recorder) returns (more: seq<Step>)
    requires Run(plan, mode, steps) && r in After(plan, steps).procs && !Terminal(After(plan, steps).procs[r].phase)
    requires Replays(plan, After(plan, steps), r)
    ensures more == steps + [Step(r, Restart)] + if r.Gate? then [] else [Step(r, Advance)]
    ensures Run(plan, mode, more) && After(plan, more) == InPhase(After(plan, steps), r, WriteOwn)
  {
    more := RestartStep(plan, mode, steps, r);
    if r.SlowCheck? { more := ReplayStep(plan, mode, more, After(plan, steps), r, Validate, WriteOwn); }
  }

  lemma WritesAgain(plan: Plan, mode: Mode, steps: seq<Step>, s: State, r: Recorder) returns (more: seq<Step>)
    requires r in s.procs && Replays(plan, s, r) && Run(plan, mode, steps) && After(plan, steps) == InPhase(s, r, WriteOwn)
    ensures more == steps + [Step(r, Advance), Step(r, Advance)]
    ensures Run(plan, mode, more) && After(plan, more) == InPhase(s, r, ReadReady)
  {
    more := ReplayStep(plan, mode, steps, s, r, WriteOwn, WriteMarker);
    more := ReplayStep(plan, mode, more, s, r, WriteMarker, ReadReady);
  }

  lemma RestartStep(plan: Plan, mode: Mode, steps: seq<Step>, r: Recorder) returns (more: seq<Step>)
    requires Run(plan, mode, steps) && r in After(plan, steps).procs && !Terminal(After(plan, steps).procs[r].phase)
    ensures more == steps + [Step(r, Restart)]
    ensures Run(plan, mode, more) && After(plan, more) == InPhase(After(plan, steps), r, Start(r))
  {
    more := steps + [Step(r, Restart)];
    RunSnoc(plan, mode, steps, Step(r, Restart));
  }

  lemma ReplayStep(plan: Plan, mode: Mode, steps: seq<Step>, s: State, r: Recorder, phase: Phase, next: Phase)
    returns (more: seq<Step>)
    requires r in s.procs && Run(plan, mode, steps) && After(plan, steps) == InPhase(s, r, phase) && !Terminal(phase)
    requires ReplaysTo(plan, s, r, phase, next)
    ensures more == steps + [Step(r, Advance)]
    ensures Run(plan, mode, more) && After(plan, more) == InPhase(s, r, next)
  {
    more := steps + [Step(r, Advance)];
    RunSnoc(plan, mode, steps, Step(r, Advance));
  }

  /** Every write of a recorder past its writes finds its slot filled. */
  lemma WritesFindSlots(plan: Plan, mode: Mode, s: State, r: Recorder)
    requires ValidPlan(plan) && Inv(plan, mode, s) && r in s.procs && Marked(s.procs[r].phase)
    ensures Replays(plan, s, r)
  {
    assert ProcOk(plan, mode, s.store, r, s.procs[r]);
    match r
    case Gate(i) => GateFindsSlots(plan, mode, s, i);
    case SlowCheck(i, c) => SlowFindsSlots(plan, mode, s, i, c);
  }

  lemma GateFindsSlots(plan: Plan, mode: Mode, s: State, i: nat)
    requires Gate(i) in s.procs && Marked(s.procs[Gate(i)].phase) && GateOk(plan, mode, s.store, i, s.procs[Gate(i)])
    ensures Replays(plan, s, Gate(i))
  {
  }

  lemma SlowFindsSlots(plan: Plan, mode: Mode, s: State, i: nat, c: Check)
    requires SlowCheck(i, c) in s.procs && Marked(s.procs[SlowCheck(i, c)].phase)
    requires SlowOk(plan, mode, s.store, i, c, s.procs[SlowCheck(i, c)])
    ensures Replays(plan, s, SlowCheck(i, c))
  {
    InTier(plan.changes[i].checks, Slow, c);
  }

  /** How the refusal of `FirstPassOutcome` comes about: a gate accepts a fast receipt that misattributes a finding. */
  lemma MisattributionRefuses(plan: Plan, group: ValidatedChange, c: Check, receipt: Receipt) returns (steps: seq<Step>)
    requires ValidPlan(plan) && |plan.changes| == 1 && Slows(plan, 0) == [c]
    requires Gated(plan.changes[0], plan.base, group)
    requires exists q :: q in group.receipts && !Attributed(plan, 0, group.implementation, q)
    requires Actionable(plan, SlowCheck(0, c), SlowPayload(group.implementation, receipt))
    ensures Run(plan, Observe, steps) && SlowCheck(0, c) in After(plan, steps).procs
    ensures var phase := After(plan, steps).procs[SlowCheck(0, c)].phase;
      phase.Refusing? && phase.error == InvalidReceipt(Misattributed)
  {
    var slow := SlowCheck(0, c);
    InTier(plan.changes[0].checks, Slow, c);
    steps := OnlyGateReturns(plan, group);
    SlowMayFollow(plan, After(plan, steps), group, c, receipt);
    steps := SlowGathers(plan, Observe, steps, 0, c, SlowPayload(group.implementation, receipt));
    steps := GatherOnlyChange(plan, steps, slow, group);
    FirstPassOutcome(plan, steps, slow);
    NotAllAttributed(plan, After(plan, steps).store, group);
  }

  lemma SlowMayFollow(plan: Plan, s: State, group: ValidatedChange, c: Check, receipt: Receipt)
    requires |plan.changes| == 1 && c in Slows(plan, 0)
    requires s.procs == map[Gate(0) := Proc(GatePayload(group), Finished)]
    ensures Allowed(plan, Observe, s, Step(SlowCheck(0, c), Begin(SlowPayload(group.implementation, receipt))))
  {
  }

  lemma NotAllAttributed(plan: Plan, store: Store, group: ValidatedChange)
    requires store.gated == map[0 := group] && exists q :: q in group.receipts && !Attributed(plan, 0, group.implementation, q)
    ensures !AllAttributed(plan, store)
  {
    var q :| q in group.receipts && !Attributed(plan, 0, group.implementation, q);
    assert 0 in store.gated && q in store.gated[0].receipts;
  }

  lemma OnlyGateReturns(plan: Plan, group: ValidatedChange) returns (steps: seq<Step>)
    requires |plan.changes| == 1 && Gated(plan.changes[0], plan.base, group)
    ensures Run(plan, Observe, steps)
    ensures After(plan, steps) ==
            State(Store(true, None, map[0 := group], map[]), map[Gate(0) := Proc(GatePayload(group), Finished)])
  {
    steps := OnlyGateWrites(plan, group);
    steps := Drive(plan, Observe, steps, Gate(0));
    steps := Drive(plan, Observe, steps, Gate(0));
  }

  lemma OnlyGateWrites(plan: Plan, group: ValidatedChange) returns (steps: seq<Step>)
    requires |plan.changes| == 1 && Gated(plan.changes[0], plan.base, group)
    ensures Run(plan, Observe, steps)
    ensures After(plan, steps) ==
            State(Store(true, None, map[0 := group], map[]), map[Gate(0) := Proc(GatePayload(group), ReadReady)])
  {
    var begin := Step(Gate(0), Begin(GatePayload(group)));
    RunSnoc(plan, Observe, [], begin);
    steps := Drive(plan, Observe, [] + [begin], Gate(0));
    steps := Drive(plan, Observe, steps, Gate(0));
  }

  /** Over a single Change with one slow check, gathering takes four more moves to its judgement. */
  lemma GatherOnlyChange(plan: Plan, before: seq<Step>, slow: Recorder, group: ValidatedChange) returns (steps: seq<Step>)
    requires |plan.changes| == 1 && |Slows(plan, 0)| == 1 && group.implementation.change == plan.changes[0].id
    requires Run(plan, Observe, before) && After(plan, before).store.gated == map[0 := group]
    requires slow in After(plan, before).procs
    requires var phase := After(plan, before).procs[slow].phase; phase.Gather? && phase.g.done == [] && phase.g.current.None?
    ensures Run(plan, Observe, steps) && slow in After(plan, steps).procs
    ensures After(plan, steps).store == After(plan, before).store
    ensures var phase := After(plan, steps).procs[slow].phase; phase.Raised? || phase.Refusing?
  {
    var s := After(plan, before);
    var a, b, d := SingleGathering(plan, s.store, s.procs[slow].phase.g, group);
    GatherMove(plan, s, slow);
    steps := Drive(plan, Observe, before, slow);
    GatherMove(plan, After(plan, steps), slow);
    steps := Drive(plan, Observe, steps, slow);
    GatherMove(plan, After(plan, steps), slow);
    steps := Drive(plan, Observe, steps, slow);
    GatherMove(plan, After(plan, steps), slow);
    steps := Drive(plan, Observe, steps, slow);
  }

  lemma SingleGathering(plan: Plan, store: Store, g: Gathering, group: ValidatedChange)
    returns (a: Gathering, b: Gathering, d: Gathering)
    requires |plan.changes| == 1 && |Slows(plan, 0)| == 1 && group.implementation.change == plan.changes[0].id
    requires store.gated == map[0 := group] && g.done == [] && g.current.None?
    ensures |a.done| == |b.done| == 0 && |d.done| == 1
    ensures GatherStep(plan, store, g) == Gather(a) && GatherStep(plan, store, a) == Gather(b)
    ensures GatherStep(plan, store, b) == Gather(d)
    ensures GatherStep(plan, store, d).Raised? || GatherStep(plan, store, d).Refusing?
  {
    a := GatherStep(plan, store, g).g;
    b := GatherStep(plan, store, a).g;
    d := GatherStep(plan, store, b).g;
  }

  lemma GatherMove(plan: Plan, s: State, r: Recorder)
    requires r in s.procs && s.procs[r].phase.Gather? && |s.procs[r].phase.g.done| <= |plan.changes|
    ensures var t := Apply(plan, s, Step(r, Advance));
      t.store == s.store && r in t.procs && t.procs[r].phase == GatherStep(plan, s.store, s.procs[r].phase.g)
  {
  }

  // ---- what a recheck can be handed ----------------------------------------------------------------

  /** An exact receipt for the check over this implementation. */
  function ReceiptFor(implementation: Implementation, check: Check, status: Status, findings: seq<Finding>): (r: Receipt)
    ensures ReceiptMatches(implementation, check, r) && r.status == status && r.findings == findings
  {
    Receipt(check.id, check.target, check.tier, implementation.change, implementation.head.commitId,
            implementation.head.treeId, CheckInputDigest(implementation, check), status, "", findings)
  }

  function SavedFor(group: ValidatedChange, check: Check): Option<Receipt> {
    FindExact(group.implementation, check, group.receipts)
  }

  /** The gate of this group can be passed: its revisions are in order and no saved required fast receipt has failed. */
  ghost predicate CanGate(change: Change, group: ValidatedChange) {
    && Implements(change, group.implementation.parent, group.implementation)
    && forall c :: c in change.checks && c.tier == Fast && c.required && SavedFor(group, c).Some? ==>
         SavedFor(group, c).value.status == Passed
  }

  /** A slow check of this group can report findings: it has no saved receipt, or its saved one has findings. */
  ghost predicate CanFind(plan: Plan, refreshed: seq<ValidatedChange>, i: nat, c: Check) {
    && i < |plan.changes| == |refreshed| && c in Slows(plan, i)
    && refreshed[i].implementation.change == plan.changes[i].id
    && (SavedFor(refreshed[i], c).Some? ==>
          Actionable(plan, SlowCheck(i, c), SlowPayload(refreshed[i].implementation, SavedFor(refreshed[i], c).value)))
  }

  function GateReceipt(group: ValidatedChange, check: Check): Receipt {
    var saved := SavedFor(group, check);
    if saved.Some? then saved.value else ReceiptFor(group.implementation, check, Passed, [])
  }

  function GateReceipts(group: ValidatedChange, checks: seq<Check>): (rs: seq<Receipt>)
    ensures |rs| == |checks| && forall k :: 0 <= k < |rs| ==> rs[k] == GateReceipt(group, checks[k])
  {
    seq(|checks|, k requires 0 <= k < |checks| => GateReceipt(group, checks[k]))
  }

  lemma GatePasses(change: Change, group: ValidatedChange) returns (gated: ValidatedChange)
    requires Distinct(CheckIds(change.checks)) && CanGate(change, group)
    ensures gated.implementation == group.implementation && Gated(change, group.implementation.parent, gated)
    ensures AllReused(group, OfTier(change.checks, Fast), gated.receipts)
  {
    var fast := OfTier(change.checks, Fast);
    gated := ValidatedChange(group.implementation, GateReceipts(group, fast));
    TierDistinct(change.checks, Fast);
    forall c | c in change.checks && c.tier == Fast
      ensures FastReceiptOk(group.implementation, c, Lookup(FastRecord(fast, gated.receipts), c.id))
    {
      InTier(change.checks, Fast, c);
      var k :| 0 <= k < |fast| && fast[k] == c;
      LookupOwn(fast, gated.receipts, k);
    }
  }

  lemma SlowFinds(plan: Plan, refreshed: seq<ValidatedChange>, i: nat, c: Check) returns (receipt: Receipt)
    requires CanFind(plan, refreshed, i, c)
    ensures Reused(refreshed[i], c, receipt)
    ensures Actionable(plan, SlowCheck(i, c), SlowPayload(refreshed[i].implementation, receipt))
  {
    var implementation := refreshed[i].implementation;
    InTier(plan.changes[i].checks, Slow, c);
    if SavedFor(refreshed[i], c).Some? {
      receipt := SavedFor(refreshed[i], c).value;
    } else {
      var finding := Finding(plan.changes[i].id, "", implementation.head.commitId);
      receipt := ReceiptFor(implementation, c, Failed, [finding]);
      assert Attributed(plan, i, implementation, receipt);
    }
  }

  // ---- a recheck that gathers too early --------------------------------------------------------------

  /** This recorder ended in the missing-implementation refusal. */
  ghost predicate Misses(plan: Plan, refreshed: seq<ValidatedChange>, steps: seq<Step>, r: Recorder) {
    && Run(plan, Recheck(refreshed), steps) && r in After(plan, steps).procs
    && var phase := After(plan, steps).procs[r].phase;
       phase.Refusing? && phase.error == InvalidReceipt(MissingImplementation)
  }

  /**
   * The last gate stores its marker while the first is still pending, and an actionable slow receipt then gathers too
   * early.
   */
  lemma RecheckCanMissAnImplementation(
    plan: Plan, refreshed: seq<ValidatedChange>, group: ValidatedChange, i: nat, c: Check, receipt: Receipt)
    returns (steps: seq<Step>)
    requires |plan.changes| > 1 && |refreshed| == |plan.changes|
    requires GateCalled(plan, Recheck(refreshed), EMPTY, |refreshed| - 1, group)
    requires i < |refreshed| && SlowCalled(plan, Recheck(refreshed), EMPTY, i, c, refreshed[i].implementation, receipt)
    requires Actionable(plan, SlowCheck(i, c), SlowPayload(refreshed[i].implementation, receipt))
    ensures Misses(plan, refreshed, steps, SlowCheck(i, c))
  {
    InTier(plan.changes[i].checks, Slow, c);
    steps := LastGateMarks(plan, refreshed, group);
    steps := SlowGathers(plan, Recheck(refreshed), steps, i, c, SlowPayload(refreshed[i].implementation, receipt));
    FirstGateMissing(plan, After(plan, steps), SlowCheck(i, c));
    steps := Drive(plan, Recheck(refreshed), steps, SlowCheck(i, c));
  }

  /** In a recheck what a recorder is called with does not depend on the others. */
  lemma {:induction false} RecheckCalled(plan: Plan, refreshed: seq<ValidatedChange>, steps: seq<Step>, r: Recorder)
    requires Run(plan, Recheck(refreshed), steps) && r in After(plan, steps).procs
    ensures var payload := After(plan, steps).procs[r].payload;
      match r
      case Gate(i) => payload.GatePayload? && GateCalled(plan, Recheck(refreshed), EMPTY, i, payload.group)
      case SlowCheck(i, c) =>
        payload.SlowPayload? && SlowCalled(plan, Recheck(refreshed), EMPTY, i, c, payload.implementation, payload.receipt)
  {
    var init, step := steps[..|steps| - 1], steps[|steps| - 1];
    if r in After(plan, init).procs {
      RecheckCalled(plan, refreshed, init, r);
    } else {
      assert Allowed(plan, Recheck(refreshed), After(plan, init), step);
    }
  }

  lemma CalledGateCan(plan: Plan, refreshed: seq<ValidatedChange>, i: nat, group: ValidatedChange)
    requires ValidPlan(plan) && GateCalled(plan, Recheck(refreshed), EMPTY, i, group)
    ensures CanGate(plan.changes[i], refreshed[i])
  {
    var change, fast := plan.changes[i], OfTier(plan.changes[i].checks, Fast);
    assert ChecksValid(change);
    TierDistinct(change.checks, Fast);
    forall c | c in change.checks && c.tier == Fast && c.required && SavedFor(refreshed[i], c).Some?
      ensures SavedFor(refreshed[i], c).value.status == Passed
    {
      InTier(change.checks, Fast, c);
      var k :| 0 <= k < |fast| && fast[k] == c;
      LookupOwn(fast, group.receipts, k);
      assert Reused(refreshed[i], fast[k], group.receipts[k]);
    }
  }

  /** Where the first actionable receipt came from. */
  lemma FirstWasFound(plan: Plan, refreshed: seq<ValidatedChange>, steps: seq<Step>) returns (i: nat, c: Check)
    requires ValidPlan(plan) && |refreshed| == |plan.changes|
    requires Run(plan, Recheck(refreshed), steps) && After(plan, steps).store.first.Some?
    ensures CanFind(plan, refreshed, i, c)
  {
    var mode, s := Recheck(refreshed), After(plan, steps);
    RunKeeps(plan, mode, steps);
    var key :| key in s.store.checked && s.store.checked[key] == s.store.first.value && HasFindings(plan, mode, s.store, key);
    i := key.0;
    c :| OwnsSlot(s, key, c);
    RecheckCalled(plan, refreshed, steps, SlowCheck(i, c));
    FoundBy(plan, refreshed, s, key, c);
  }

  lemma FoundBy(plan: Plan, refreshed: seq<ValidatedChange>, s: State, key: (nat, string), c: Check)
    requires ValidPlan(plan) && |refreshed| == |plan.changes|
    requires OwnsSlot(s, key, c) && HasFindings(plan, Recheck(refreshed), s.store, key)
    requires var payload := s.procs[SlowCheck(key.0, c)].payload;
      SlowCalled(plan, Recheck(refreshed), EMPTY, key.0, c, payload.implementation, payload.receipt)
    ensures CanFind(plan, refreshed, key.0, c)
  {
    var i, receipt := key.0, s.store.checked[key];
    InTier(plan.changes[i].checks, Slow, c);
    assert ChecksValid(plan.changes[i]);
    FindOwn(plan.changes[i].checks, c);
    assert Verdict(plan, i, refreshed[i].implementation, receipt)
      == ReceiptFindings(plan, i, refreshed[i].implementation, c, receipt);
  }

  /**
   * Exactly when some run of the recheck ends in the missing-implementation refusal: there are two Changes, the last
   * gate can be passed, and some slow check can report findings. All three are read off the refreshed groups.
   */
  lemma RecheckMissesExactly(plan: Plan, refreshed: seq<ValidatedChange>)
    requires ValidPlan(plan) && |refreshed| == |plan.changes|
    ensures (exists steps, r :: Misses(plan, refreshed, steps, r)) <==>
      && |plan.changes| > 1
      && CanGate(plan.changes[|plan.changes| - 1], refreshed[|plan.changes| - 1])
      && exists i, c :: CanFind(plan, refreshed, i, c)
  {
    var last := |plan.changes| - 1;
    forall steps, r | Misses(plan, refreshed, steps, r)
      ensures |plan.changes| > 1 && CanGate(plan.changes[last], refreshed[last])
      ensures exists i, c :: CanFind(plan, refreshed, i, c)
    {
      MissedNeeds(plan, refreshed, steps, r);
      var i, c := FirstWasFound(plan, refreshed, steps);
    }
    if i, c :| CanFind(plan, refreshed, i, c) && last > 0 && CanGate(plan.changes[last], refreshed[last]) {
      var steps := CanMiss(plan, refreshed, i, c);
    }
  }

  lemma CanMiss(plan: Plan, refreshed: seq<ValidatedChange>, i: nat, c: Check) returns (steps: seq<Step>)
    requires ValidPlan(plan) && |refreshed| == |plan.changes| > 1 && CanFind(plan, refreshed, i, c)
    requires CanGate(plan.changes[|plan.changes| - 1], refreshed[|plan.changes| - 1])
    ensures Misses(plan, refreshed, steps, SlowCheck(i, c))
  {
    var last := |plan.changes| - 1;
    assert ChecksValid(plan.changes[last]);
    var group := GatePasses(plan.changes[last], refreshed[last]);
    var receipt := SlowFinds(plan, refreshed, i, c);
    steps := RecheckCanMissAnImplementation(plan, refreshed, group, i, c, receipt);
  }

  lemma MissedNeeds(plan: Plan, refreshed: seq<ValidatedChange>, steps: seq<Step>, r: Recorder)
    requires ValidPlan(plan) && |refreshed| == |plan.changes| && Misses(plan, refreshed, steps, r)
    ensures |plan.changes| > 1 && After(plan, steps).store.first.Some?
    ensures CanGate(plan.changes[|plan.changes| - 1], refreshed[|plan.changes| - 1])
  {
    var last, s := |plan.changes| - 1, After(plan, steps);
    RecheckOutcome(plan, refreshed, steps, r);
    MarkersStored(plan, Recheck(refreshed), steps, r);
    RunKeeps(plan, Recheck(refreshed), steps);
    assert Gate(last) in s.procs && s.procs[Gate(last)].payload == GatePayload(s.store.gated[last]);
    RecheckCalled(plan, refreshed, steps, Gate(last));
    CalledGateCan(plan, refreshed, last, s.store.gated[last]);
  }

  /** A recorder refuses while gathering only after both markers were stored. */
  lemma MarkersStored(plan: Plan, mode: Mode, steps: seq<Step>, r: Recorder)
    requires ValidPlan(plan) && Run(plan, mode, steps)
    requires r in After(plan, steps).procs && After(plan, steps).procs[r].phase.Refusing?
    ensures After(plan, steps).store.ready && After(plan, steps).store.first.Some?
  {
    PhaseHolds(plan, mode, steps, r);
  }

  lemma FirstGateMissing(plan: Plan, s: State, r: Recorder)
    requires |plan.changes| > 0 && r in s.procs && 0 !in s.store.gated
    requires s.procs[r].phase.Gather? && s.procs[r].phase.g.done == [] && s.procs[r].phase.g.current.None?
    ensures r in Apply(plan, s, Step(r, Advance)).procs
    ensures Apply(plan, s, Step(r, Advance)).procs[r].phase == Refusing(InvalidReceipt(MissingImplementation), s.store)
    ensures Apply(plan, s, Step(r, Advance)).store == s.store
  {
  }

  lemma LastGateMarks(plan: Plan, refreshed: seq<ValidatedChange>, group: ValidatedChange) returns (steps: seq<Step>)
    requires |plan.changes| > 1 && |refreshed| == |plan.changes|
    requires GateCalled(plan, Recheck(refreshed), EMPTY, |refreshed| - 1, group)
    ensures Run(plan, Recheck(refreshed), steps)
    ensures var s := After(plan, steps); s.store.ready && s.store.first.None? && 0 !in s.store.gated && forall r :: r in s.procs ==> r.Gate?
  {
    var mode, gate := Recheck(refreshed), Gate(|plan.changes| - 1);
    var begin := Step(gate, Begin(GatePayload(group)));
    RunSnoc(plan, mode, [], begin);
    OwnWrite(plan, Apply(plan, EMPTY, begin), |plan.changes| - 1, group);
    steps := Drive(plan, mode, [] + [begin], gate);
    steps := Drive(plan, mode, steps, gate);
  }

  lemma OwnWrite(plan: Plan, s: State, i: nat, group: ValidatedChange)
    requires s == State(EMPTY.store, map[Gate(i) := Proc(GatePayload(group), WriteOwn)])
    ensures Apply(plan, s, Step(Gate(i), Advance)) ==
            State(EMPTY.store.(gated := map[i := group]), map[Gate(i) := Proc(GatePayload(group), WriteMarker)])
  {
  }

  lemma SlowGathers(plan: Plan, mode: Mode, before: seq<Step>, i: nat, c: Check, payload: Payload)
    returns (steps: seq<Step>)
    requires Run(plan, mode, before) && After(plan, before).store.ready && After(plan, before).store.first.None?
    requires i < |plan.changes| && c in plan.changes[i].checks && c.tier == Slow
    requires Allowed(plan, mode, After(plan, before), Step(SlowCheck(i, c), Begin(payload)))
    requires Actionable(plan, SlowCheck(i, c), payload)
    ensures Run(plan, mode, steps) && SlowCheck(i, c) in After(plan, steps).procs
    ensures After(plan, steps).store.gated == After(plan, before).store.gated
    ensures var phase := After(plan, steps).procs[SlowCheck(i, c)].phase; phase.Gather? && phase.g.done == [] && phase.g.current.None?
  {
    var slow := SlowCheck(i, c);
    steps := SlowReachesMarker(plan, mode, before, i, c, payload);
    MarkerStep(plan, After(plan, steps), slow);
    steps := Drive(plan, mode, steps, slow);
    ReadySeen(plan, After(plan, steps), slow);
    steps := Drive(plan, mode, steps, slow);
    FirstSeen(plan, After(plan, steps), slow);
    steps := Drive(plan, mode, steps, slow);
  }

  lemma ReadySeen(plan: Plan, s: State, slow: Recorder)
    requires slow in s.procs && s.procs[slow].phase == ReadReady && s.store.ready
    ensures var t := Apply(plan, s, Step(slow, Advance));
      t.store == s.store && slow in t.procs && t.procs[slow] == Proc(s.procs[slow].payload, ReadFirst(true))
  {
  }

  lemma FirstSeen(plan: Plan, s: State, slow: Recorder)
    requires slow in s.procs && s.procs[slow].phase == ReadFirst(true) && s.store.first.Some?
    ensures var t := Apply(plan, s, Step(slow, Advance));
      && t.store == s.store && slow in t.procs && t.procs[slow].phase.Gather?
      && t.procs[slow].phase.g.done == [] && t.procs[slow].phase.g.current.None?
  {
  }

  lemma MarkerStep(plan: Plan, s: State, slow: Recorder)
    requires slow in s.procs && s.procs[slow].phase == WriteMarker && Actionable(plan, slow, s.procs[slow].payload)
    ensures var t := Apply(plan, s, Step(slow, Advance));
      && t.store.gated == s.store.gated && t.store.ready == s.store.ready && t.store.first.Some?
      && slow in t.procs && t.procs[slow] == Proc(s.procs[slow].payload, ReadReady)
  {
  }

  /** From its beginning to the point where its own receipt is stored and its marker is next. */
  lemma SlowReachesMarker(plan: Plan, mode: Mode, before: seq<Step>, i: nat, c: Check, payload: Payload)
    returns (steps: seq<Step>)
    requires Run(plan, mode, before)
    requires i < |plan.changes| && c in plan.changes[i].checks && c.tier == Slow
    requires Allowed(plan, mode, After(plan, before), Step(SlowCheck(i, c), Begin(payload)))
    requires Actionable(plan, SlowCheck(i, c), payload)
    ensures Run(plan, mode, steps) && SlowCheck(i, c) in After(plan, steps).procs
    ensures After(plan, steps).procs[SlowCheck(i, c)] == Proc(payload, WriteMarker)
    ensures var s, t := After(plan, before).store, After(plan, steps).store;
      t.gated == s.gated && t.ready == s.ready && t.first == s.first
  {
    var slow := SlowCheck(i, c);
    RunSnoc(plan, mode, before, Step(slow, Begin(payload)));
    steps := before + [Step(slow, Begin(payload))];
    steps := Drive(plan, mode, steps, slow);
    steps := Drive(plan, mode, steps, slow);
  }
}
