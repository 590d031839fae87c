/** The bounded correction rounds of flows/coding/correction.ts, over passes whose exits the environment chooses. */
module CodingRounds {
  import opened Wrappers
  import opened CodingSchema
  import opened CodingWorkflow
  import opened CodingCorrection
  import opened CodingFeedback
  import opened CodingFeedbackSafety

  // ---- what a pass may end with ------------------------------------------------------------------

  /** How a cancellation request after early feedback ended. */
  datatype Acknowledgement = Stopped | NotStopped | StopInterrupted
  datatype PassExit = Completed(result: Result) | Early(result: Result, ack: Acknowledgement) | Broke | Interrupted

  /** What `stages` and `repairChecks` assemble for one Change: a gated group, then one accepted receipt per slow check. */
  ghost predicate Staged(plan: Plan, i: nat, foot: Revision, group: ValidatedChange)
    requires i < |plan.changes|
  {
    var n, slows := |OfTier(plan.changes[i].checks, Fast)|, Slows(plan, i);
    && |group.receipts| == n + |slows|
    && Gated(plan.changes[i], foot, group.(receipts := group.receipts[..n]))
    && forall k :: 0 <= k < |slows| ==>
         ReceiptFindings(plan, i, group.implementation, slows[k], group.receipts[n + k]).Ok?
  }

  /** The verdict `Assess` attaches; see `CodingWorkflow.Assess`. */
  ghost predicate Assessed(plan: Plan, result: Result) {
    && (result.status == Validated <==> Trustworthy(plan, result.changes))
    && Tells(plan, result.changes, result.findings) && (result.status == Validated <==> result.findings == [])
  }

  /** The first pass validates the plan before anything else, so a refused plan can only break or be interrupted. */
  ghost predicate FirstPassCan(plan: Plan, exit: PassExit) {
    match exit
    case Completed(result) =>
      && ValidPlan(plan) && |result.changes| == |plan.changes| && Assessed(plan, result)
      && forall i {:trigger Foot(plan.base, result.changes, i)} :: 0 <= i < |result.changes| ==>
           Staged(plan, i, Foot(plan.base, result.changes, i), result.changes[i])
    case Early(result, _) => ValidPlan(plan) && exists steps, r :: Raises(plan, Observe, steps, r, result)
    case _ => true
  }

  ghost predicate Raises(plan: Plan, mode: Mode, steps: seq<Step>, r: Recorder, result: Result) {
    && Run(plan, mode, steps) && r in After(plan, steps).procs
    && After(plan, steps).procs[r].phase.Raised? && After(plan, steps).procs[r].phase.result == result
  }

  /** The groups a repair pass rechecks: some restackable edit of the previous result, whoever chose and made it. */
  ghost predicate Refreshes(plan: Plan, previous: Result, input: Input, groups: seq<ValidatedChange>) {
    && input.plan == plan && input.previous == previous && Restackable(input) && IsReconstruction(input, groups)
  }

  ghost predicate RepairPassCan(plan: Plan, previous: Result, exit: PassExit) {
    match exit
    case Completed(result) => exists input, groups :: Refreshes(plan, previous, input, groups) && Rechecks(plan, groups, result)
    case Early(result, _) =>
      exists input, groups, steps, r ::
        Refreshes(plan, previous, input, groups) && Raises(plan, Recheck(groups), steps, r, result)
    case _ => true
  }

  ghost predicate Rechecks(plan: Plan, groups: seq<ValidatedChange>, result: Result) {
    && |result.changes| == |groups| == |plan.changes| && Assessed(plan, result)
    && forall i :: 0 <= i < |groups| ==>
         && result.changes[i].implementation == groups[i].implementation
         && Staged(plan, i, groups[i].implementation.parent, result.changes[i])
  }

  ghost predicate PassCan(plan: Plan, previous: Option<Result>, exit: PassExit) {
    if previous.None? then FirstPassCan(plan, exit) else RepairPassCan(plan, previous.value, exit)
  }

  // ---- what every pass result is -----------------------------------------------------------------

  /** A linear history over exactly the planned Changes and native identities, with exact evidence only. */
  ghost predicate WellFormed(plan: Plan, changes: seq<ValidatedChange>) {
    && |changes| == |plan.changes|
    && Progression(plan.base, changes)
    && forall i :: 0 <= i < |changes| ==> GroupFits(plan.changes[i], changes[i])
  }

  ghost predicate GroupFits(change: Change, group: ValidatedChange) {
    && group.implementation.change == change.id
    && |group.implementation.atoms| == |change.atoms|
    && Keeps(change.atoms, group.implementation.atoms)
    && Exact(change, group)
  }

  lemma StagedFits(plan: Plan, i: nat, foot: Revision, group: ValidatedChange)
    requires ValidPlan(plan) && i < |plan.changes| && Staged(plan, i, foot, group)
    ensures Implements(plan.changes[i], foot, group.implementation) && GroupFits(plan.changes[i], group)
  {
    var n, slows := |OfTier(plan.changes[i].checks, Fast)|, Slows(plan, i);
    assert ChecksValid(plan.changes[i]);
    var gate := group.(receipts := group.receipts[..n]);
    GatedGroupOk(plan.changes[i], foot, gate);
    forall x | x in group.receipts ensures ExactReceipt(plan.changes[i], group.implementation, x) {
      var k :| 0 <= k < |group.receipts| && group.receipts[k] == x;
      if k < n {
        assert x in gate.receipts;
      } else {
        StagedSlowExact(plan, i, foot, group, k - n);
      }
    }
  }

  lemma StagedSlowExact(plan: Plan, i: nat, foot: Revision, group: ValidatedChange, j: nat)
    requires ValidPlan(plan) && i < |plan.changes| && Staged(plan, i, foot, group) && j < |Slows(plan, i)|
    requires |OfTier(plan.changes[i].checks, Fast)| + j < |group.receipts|
    ensures ExactReceipt(plan.changes[i], group.implementation, group.receipts[|OfTier(plan.changes[i].checks, Fast)| + j])
  {
    var n := |OfTier(plan.changes[i].checks, Fast)|;
    assert ReceiptFindings(plan, i, group.implementation, Slows(plan, i)[j], group.receipts[n + j]).Ok?;
  }

  lemma StackedIsLinear(plan: Plan, changes: seq<ValidatedChange>)
    requires Stacked(plan, changes)
    ensures Progression(plan.base, changes)
  {
  }

  /** However the first pass ends with a result, that result is well formed. */
  lemma FirstPassWellFormed(plan: Plan, exit: PassExit)
    requires FirstPassCan(plan, exit) && (exit.Completed? || exit.Early?)
    ensures ValidPlan(plan) && WellFormed(plan, exit.result.changes)
  {
    var changes := exit.result.changes;
    match exit
    case Completed(result) =>
      forall i | 0 <= i < |changes|
        ensures GroupFits(plan.changes[i], changes[i])
        ensures Implements(plan.changes[i], Foot(plan.base, changes, i), changes[i].implementation)
      {
        StagedFits(plan, i, Foot(plan.base, changes, i), changes[i]);
      }
      StackedIsLinear(plan, changes);
    case Early(result, _) =>
      var steps, r :| Raises(plan, Observe, steps, r, result);
      FeedbackIsLinear(plan, Observe, steps, r);
      StackedIsLinear(plan, changes);
      forall i | 0 <= i < |changes| ensures GroupFits(plan.changes[i], changes[i]) {
        FeedbackIsFaithful(plan, Observe, steps, r, i);
        assert Implements(plan.changes[i], Foot(plan.base, changes, i), changes[i].implementation);
      }
  }

  /** The rebuilt history alone: linear, over the same Changes and the same native identities. */
  lemma RefreshedFits(plan: Plan, previous: Result, input: Input, groups: seq<ValidatedChange>)
    requires WellFormed(plan, previous.changes) && Refreshes(plan, previous, input, groups)
    ensures Progression(plan.base, groups) && |groups| == |plan.changes|
    ensures forall i :: 0 <= i < |groups| ==>
      && groups[i].implementation.change == plan.changes[i].id
      && |groups[i].implementation.atoms| == |plan.changes[i].atoms|
      && Keeps(plan.changes[i].atoms, groups[i].implementation.atoms)
      && AtomIds(groups[i].implementation.atoms) == AtomIds(previous.changes[i].implementation.atoms)
  {
    ReconstructionIsLinear(input, groups);
    forall i | 0 <= i < |groups|
      ensures groups[i].implementation.change == plan.changes[i].id
      ensures |groups[i].implementation.atoms| == |plan.changes[i].atoms|
      ensures Keeps(plan.changes[i].atoms, groups[i].implementation.atoms)
      ensures AtomIds(groups[i].implementation.atoms) == AtomIds(previous.changes[i].implementation.atoms)
    {
      GroupRevisions(input, groups, i);
      assert GroupFits(plan.changes[i], previous.changes[i]);
    }
  }

  /** Linear histories depend on implementations only, so they carry over to any groups with the same ones. */
  lemma ProgressionCarries(base: Revision, left: seq<ValidatedChange>, right: seq<ValidatedChange>)
    requires Progression(base, right) && |left| == |right| && SameImplementations(left, right)
    ensures Progression(base, left) && FlatIds(left) == FlatIds(right)
  {
    forall i | 0 <= i < |left| ensures GroupLinear(Foot(base, left, i), left[i].implementation) {
      assert Foot(base, right, i) == Foot(base, left, i);
    }
    SameFlatIds(left, right);
  }

  lemma {:induction false} SameFlatIds(left: seq<ValidatedChange>, right: seq<ValidatedChange>)
    requires |left| == |right|
    requires forall i :: 0 <= i < |left| ==> AtomIds(left[i].implementation.atoms) == AtomIds(right[i].implementation.atoms)
    ensures FlatIds(left) == FlatIds(right)
  {
    if left != [] { SameFlatIds(left[..|left| - 1], right[..|right| - 1]); }
  }

  /** However a repair pass ends with a result, it is well formed again and names the same native changes in the same order. */
  lemma RepairPassWellFormed(plan: Plan, previous: Result, exit: PassExit)
    requires ValidPlan(plan) && WellFormed(plan, previous.changes)
    requires RepairPassCan(plan, previous, exit) && (exit.Completed? || exit.Early?)
    ensures WellFormed(plan, exit.result.changes)
    ensures FlatIds(exit.result.changes) == FlatIds(previous.changes)
  {
    match exit
    case Completed(result) =>
      var input: Input, groups: seq<ValidatedChange> :| Refreshes(plan, previous, input, groups) && Rechecks(plan, groups, result);
      RecheckedWellFormed(plan, previous, input, groups, result);
    case Early(result, _) =>
      var input, groups, steps, r :| Refreshes(plan, previous, input, groups) && Raises(plan, Recheck(groups), steps, r, result);
      EarlyWellFormed(plan, previous, input, groups, steps, r, result);
  }

  lemma RecheckedWellFormed(plan: Plan, previous: Result, input: Input, groups: seq<ValidatedChange>, result: Result)
    requires ValidPlan(plan) && WellFormed(plan, previous.changes)
    requires Refreshes(plan, previous, input, groups) && Rechecks(plan, groups, result)
    ensures WellFormed(plan, result.changes) && FlatIds(result.changes) == FlatIds(previous.changes)
  {
    RefreshedFits(plan, previous, input, groups);
    SameFlatIds(groups, previous.changes);
    ProgressionCarries(plan.base, result.changes, groups);
    forall i | 0 <= i < |groups| ensures GroupFits(plan.changes[i], result.changes[i]) {
      StagedFits(plan, i, groups[i].implementation.parent, result.changes[i]);
    }
  }

  lemma EarlyWellFormed(
    plan: Plan, previous: Result, input: Input, groups: seq<ValidatedChange>, steps: seq<Step>, r: Recorder, result: Result)
    requires ValidPlan(plan) && WellFormed(plan, previous.changes)
    requires Refreshes(plan, previous, input, groups) && Raises(plan, Recheck(groups), steps, r, result)
    ensures WellFormed(plan, result.changes) && FlatIds(result.changes) == FlatIds(previous.changes)
  {
    RefreshedFits(plan, previous, input, groups);
    SameFlatIds(groups, previous.changes);
    FeedbackIsLinear(plan, Recheck(groups), steps, r);
    RaisedLength(plan, Recheck(groups), steps, r);
    ProgressionCarries(plan.base, result.changes, groups);
    forall i | 0 <= i < |groups| ensures GroupFits(plan.changes[i], result.changes[i]) {
      FeedbackIsFaithful(plan, Recheck(groups), steps, r, i);
    }
  }

  lemma RaisedLength(plan: Plan, mode: Mode, steps: seq<Step>, r: Recorder)
    requires ValidPlan(plan) && Run(plan, mode, steps)
    requires r in After(plan, steps).procs && After(plan, steps).procs[r].phase.Raised?
    ensures |After(plan, steps).procs[r].phase.result.changes| == |plan.changes|
    ensures After(plan, steps).procs[r].phase.result.status == ChangesRequested
  {
    PhaseHolds(plan, mode, steps, r);
  }

  // ---- rounds ------------------------------------------------------------------------------------

  datatype Cursor = Cursor(plan: Plan, maxRounds: nat, round: nat, previous: Option<Result>)
  datatype RoundOutcome = RoundOutcome(result: Option<Result>, blocked: bool)
  datatype CorrectionStatus = Corrected(status: ResultStatus) | Blocked
  datatype CorrectionResult = CorrectionResult(status: CorrectionStatus, rounds: nat, result: Option<Result>, blocked: bool)

  /** The pass, or waiting for its obsolete checks to stop, was itself interrupted. */
  predicate Interrupts(exit: PassExit) {
    exit.Interrupted? || (exit.Early? && exit.ack.StopInterrupted?)
  }

  /** The pass failed, or its obsolete checks did not acknowledge that they stopped. */
  predicate Blocks(exit: PassExit) {
    exit.Broke? || (exit.Early? && exit.ack.NotStopped?)
  }

  predicate HasResult(exit: PassExit) {
    exit.Completed? || exit.Early?
  }

  /** No outcome exactly when interrupted, blocked exactly when the pass blocks, and the pass's own result whenever it has one. */
  function RunRound(exit: PassExit): (r: Option<RoundOutcome>)
    ensures r.None? <==> Interrupts(exit)
    ensures r.Some? ==> (r.value.blocked <==> Blocks(exit))
    ensures r.Some? ==> r.value.result == if HasResult(exit) then Some(exit.result) else None
    ensures r.Some? ==> r.value.result.Some? || r.value.blocked
  {
    match exit
    case Completed(result) => Some(RoundOutcome(Some(result), false))
    case Early(result, Stopped) => Some(RoundOutcome(Some(result), false))
    case Early(result, NotStopped) => Some(RoundOutcome(Some(result), true))
    case Early(result, StopInterrupted) => None
    case Broke => Some(RoundOutcome(None, true))
    case Interrupted => None
  }

  function Finish(cursor: Cursor, outcome: RoundOutcome): CorrectionResult
    requires outcome.result.Some? || outcome.blocked
  {
    CorrectionResult(
      if outcome.blocked then Blocked else Corrected(outcome.result.value.status), cursor.round,
      if outcome.result.Some? then outcome.result else cursor.previous, outcome.blocked)
  }

  /** From the second round on a cursor carries a well-formed request for changes over unchanging identities. */
  ghost predicate CursorOk(cursor: Cursor, ids: Option<seq<string>>) {
    match cursor.previous
    case None => cursor.round == 1
    case Some(previous) =>
      && previous.status == ChangesRequested && ValidPlan(cursor.plan) && WellFormed(cursor.plan, previous.changes)
      && ids == Some(FlatIds(previous.changes))
  }

  /** An environment whose passes, whatever the cursor, end in one of the ways a pass can end. */
  ghost predicate Environment(plan: Plan, pass: Cursor -> PassExit) {
    forall c: Cursor {:trigger Asked(pass, c)} :: Asked(pass, c) ==> PassCan(plan, c.previous, pass(c))
  }

  ghost predicate Asked(pass: Cursor -> PassExit, c: Cursor) {
    true
  }

  lemma PassKeeps(cursor: Cursor, exit: PassExit, ids: Option<seq<string>>)
    requires CursorOk(cursor, ids) && PassCan(cursor.plan, cursor.previous, exit)
    requires exit.Completed? || exit.Early?
    ensures ValidPlan(cursor.plan) && WellFormed(cursor.plan, exit.result.changes)
    ensures cursor.previous.Some? ==> ids == Some(FlatIds(exit.result.changes))
    ensures exit.result.status == Validated ==> Trustworthy(cursor.plan, exit.result.changes)
  {
    match cursor.previous
    case None =>
      FirstPassWellFormed(cursor.plan, exit);
      if exit.Early? {
        var steps, r :| Raises(cursor.plan, Observe, steps, r, exit.result);
        RaisedLength(cursor.plan, Observe, steps, r);
      }
    case Some(previous) =>
      RepairPassWellFormed(cursor.plan, previous, exit);
      if exit.Early? {
        var input, groups, steps, r :|
          Refreshes(cursor.plan, previous, input, groups) && Raises(cursor.plan, Recheck(groups), steps, r, exit.result);
        RaisedLength(cursor.plan, Recheck(groups), steps, r);
      }
  }

  /** The round's outcome, for the trampoline: a well-formed result whenever there is one, trustworthy when validated. */
  lemma RoundKeeps(cursor: Cursor, pass: Cursor -> PassExit, ids: Option<seq<string>>)
    requires CursorOk(cursor, ids) && Environment(cursor.plan, pass)
    ensures var outcome := RunRound(pass(cursor));
      outcome.Some? && outcome.value.result.Some? ==>
        var result := outcome.value.result.value;
        && Known(cursor.plan, result, Some(FlatIds(result.changes)))
        && (cursor.previous.Some? ==> ids == Some(FlatIds(result.changes)))
  {
    assert Asked(pass, cursor);
    var exit := pass(cursor);
    if exit.Completed? || exit.Early? { PassKeeps(cursor, exit, ids); }
  }

  /** A result the controller may report: well formed over the run's identities, and trustworthy if validated. */
  ghost predicate Known(plan: Plan, result: Result, ids: Option<seq<string>>) {
    && ValidPlan(plan) && WellFormed(plan, result.changes) && ids == Some(FlatIds(result.changes))
    && (result.status == Validated ==> Trustworthy(plan, result.changes))
  }

  /** Round numbers count up from one, and only the first round has no previous result. */
  ghost predicate TrailOk(trail: seq<Cursor>, ids: Option<seq<string>>) {
    forall k {:trigger trail[k]} :: 0 <= k < |trail| ==>
      trail[k].round == k + 1 && (trail[k].previous.None? <==> k == 0) && CursorOk(trail[k], ids)
  }

  /**
   * What a caller may rely on: the bound, a block in the first round for a plan that validation refuses, well-formed
   * results, validated only if trustworthy, open findings only when the rounds are spent.
   */
  ghost predicate Sound(plan: Plan, maxRounds: nat, r: CorrectionResult) {
    && 1 <= r.rounds <= maxRounds
    && (!ValidPlan(plan) ==> r == CorrectionResult(Blocked, 1, None, true))
    && match r.status
       case Blocked => r.blocked && (r.result.Some? ==> WellFormed(plan, r.result.value.changes))
       case Corrected(status) =>
         && !r.blocked && r.result.Some? && r.result.value.status == status && WellFormed(plan, r.result.value.changes)
         && (if status == Validated then Trustworthy(plan, r.result.value.changes) else r.rounds == maxRounds)
  }

  /** What a finished run reports about its trail. */
  ghost predicate Reported(plan: Plan, maxRounds: nat, trail: seq<Cursor>, ids: Option<seq<string>>, r: CorrectionResult) {
    && r.rounds == |trail| && (r.status == Blocked <==> r.blocked)
    && (r.result.Some? ==> Known(plan, r.result.value, ids))
    && (r.result.None? ==> r.blocked && |trail| == 1)
    && (r.status.Corrected? ==> r.result.Some? && r.status.status == r.result.value.status)
    && (r.status == Corrected(ChangesRequested) ==> |trail| == maxRounds)
  }

  /** A next cursor over a requested change extends the trail; identities are fixed from the first result on. */
  lemma TrailGrows(trail: seq<Cursor>, known: Option<seq<string>>, ids: Option<seq<string>>, next: Cursor)
    requires TrailOk(trail, known) && (|trail| > 1 ==> known == ids)
    requires next.round == |trail| + 1 && |trail| > 0 && next.previous.Some? && CursorOk(next, ids)
    ensures TrailOk(trail + [next], ids)
  {
  }

  lemma TrailKept(trail: seq<Cursor>, known: Option<seq<string>>, ids: Option<seq<string>>)
    requires TrailOk(trail, known) && (|trail| > 1 ==> known == ids)
    ensures TrailOk(trail, ids)
  {
  }

  lemma FinishReports(cursor: Cursor, outcome: RoundOutcome, trail: seq<Cursor>, ids: Option<seq<string>>)
    requires outcome.result.Some? || outcome.blocked
    requires cursor.round == |trail| && (cursor.previous.None? ==> |trail| == 1)
    requires outcome.result.Some? ==> Known(cursor.plan, outcome.result.value, ids)
    requires outcome.result.None? && cursor.previous.Some? ==> Known(cursor.plan, cursor.previous.value, ids)
    requires outcome.blocked || outcome.result.value.status == Validated || cursor.round == cursor.maxRounds
    requires 1 <= cursor.round <= cursor.maxRounds
    ensures Reported(cursor.plan, cursor.maxRounds, trail, ids, Finish(cursor, outcome))
    ensures Sound(cursor.plan, cursor.maxRounds, Finish(cursor, outcome))
  {
  }

  /** Between two rounds: the cursor is the last of a good trail, and what it knows is known. */
  ghost predicate Underway(
    plan: Plan, maxRounds: nat, pass: Cursor -> PassExit, cursor: Cursor, trail: seq<Cursor>, ids: Option<seq<string>>)
  {
    && cursor.plan == plan && cursor.maxRounds == maxRounds && 1 <= cursor.round <= maxRounds
    && |trail| == cursor.round && trail[|trail| - 1] == cursor && TrailOk(trail, ids)
    && Threaded(plan, maxRounds, pass, trail)
    && (cursor.previous.Some? ==> Known(plan, cursor.previous.value, ids))
    && (cursor.round == 1 ==> ids == None)
  }

  /** The branch of the round flow. */
  predicate Last(cursor: Cursor, outcome: RoundOutcome)
    requires outcome.result.Some? || outcome.blocked
  {
    outcome.blocked || outcome.result.value.status == Validated || cursor.round >= cursor.maxRounds
  }

  function Next(cursor: Cursor, outcome: RoundOutcome): Cursor {
    cursor.(round := cursor.round + 1, previous := outcome.result)
  }

  /** The identities of the run: those of its first result, which every later one repeats. */
  function IdsAfter(outcome: RoundOutcome, ids: Option<seq<string>>): Option<seq<string>> {
    if outcome.result.Some? then Some(FlatIds(outcome.result.value.changes)) else ids
  }

  /** Every round but the last ended, unblocked, asking for changes, and handed exactly its result to the next. */
  ghost predicate Threaded(plan: Plan, maxRounds: nat, pass: Cursor -> PassExit, trail: seq<Cursor>) {
    && trail != [] && trail[0] == Cursor(plan, maxRounds, 1, None)
    && forall k {:trigger trail[k]} :: 0 < k < |trail| ==> HandsOn(maxRounds, pass, trail[k - 1], trail[k])
  }

  ghost predicate HandsOn(maxRounds: nat, pass: Cursor -> PassExit, cursor: Cursor, next: Cursor) {
    var exit := pass(cursor);
    && HasResult(exit) && !Interrupts(exit) && !Blocks(exit) && exit.result.status == ChangesRequested
    && cursor.round < maxRounds
    && next == Cursor(cursor.plan, cursor.maxRounds, cursor.round + 1, Some(exit.result))
  }

  /** The answer to a last round, from how its pass ended alone. */
  ghost predicate Answers(maxRounds: nat, cursor: Cursor, exit: PassExit, r: Option<CorrectionResult>) {
    && (r.None? <==> Interrupts(exit))
    && (r.Some? ==>
          && r.value.rounds == cursor.round
          && (r.value.status == Blocked <==> Blocks(exit)) && (r.value.blocked <==> Blocks(exit))
          && (!Blocks(exit) ==> r.value.status == Corrected(exit.result.status))
          && r.value.result == (if HasResult(exit) then Some(exit.result) else cursor.previous)
          && (!Blocks(exit) && exit.result.status == ChangesRequested ==> cursor.round == maxRounds))
  }

  /**
   * The whole run, over the passes alone: within the bound, a good trail threaded by their results, and the answer that
   * the last pass gives.
   */
  ghost predicate Traced(
    plan: Plan, maxRounds: nat, pass: Cursor -> PassExit, trail: seq<Cursor>, ids: Option<seq<string>>,
    r: Option<CorrectionResult>)
  {
    && 1 <= |trail| <= maxRounds && TrailOk(trail, ids) && Threaded(plan, maxRounds, pass, trail)
    && trail[|trail| - 1].plan == plan
    && Answers(maxRounds, trail[|trail| - 1], pass(trail[|trail| - 1]), r)
    && (r.Some? ==> Reported(plan, maxRounds, trail, ids, r.value))
  }

  lemma FirstRound(plan: Plan, maxRounds: nat, pass: Cursor -> PassExit)
    requires 1 <= maxRounds
    ensures Underway(plan, maxRounds, pass, Cursor(plan, maxRounds, 1, None), [Cursor(plan, maxRounds, 1, None)], None)
  {
  }

  lemma InterruptedRound(
    plan: Plan, maxRounds: nat, pass: Cursor -> PassExit, cursor: Cursor, trail: seq<Cursor>, ids: Option<seq<string>>)
    requires Underway(plan, maxRounds, pass, cursor, trail, ids) && RunRound(pass(cursor)) == None
    ensures Traced(plan, maxRounds, pass, trail, ids, None)
  {
  }

  lemma LastRound(
    plan: Plan, maxRounds: nat, pass: Cursor -> PassExit, cursor: Cursor, trail: seq<Cursor>, ids: Option<seq<string>>,
    outcome: RoundOutcome)
    requires Environment(plan, pass) && Underway(plan, maxRounds, pass, cursor, trail, ids)
    requires RunRound(pass(cursor)) == Some(outcome) && Last(cursor, outcome)
    ensures Traced(plan, maxRounds, pass, trail, IdsAfter(outcome, ids), Some(Finish(cursor, outcome)))
    ensures Sound(plan, maxRounds, Finish(cursor, outcome))
  {
    RoundKeeps(cursor, pass, ids);
    TrailKept(trail, ids, IdsAfter(outcome, ids));
    FinishReports(cursor, outcome, trail, IdsAfter(outcome, ids));
    FinishAnswers(cursor, pass(cursor), outcome);
  }

  lemma FinishAnswers(cursor: Cursor, exit: PassExit, outcome: RoundOutcome)
    requires RunRound(exit) == Some(outcome) && Last(cursor, outcome) && cursor.round <= cursor.maxRounds
    ensures Answers(cursor.maxRounds, cursor, exit, Some(Finish(cursor, outcome)))
  {
  }

  lemma NextRound(
    plan: Plan, maxRounds: nat, pass: Cursor -> PassExit, cursor: Cursor, trail: seq<Cursor>, ids: Option<seq<string>>,
    outcome: RoundOutcome)
    requires Environment(plan, pass) && Underway(plan, maxRounds, pass, cursor, trail, ids)
    requires RunRound(pass(cursor)) == Some(outcome) && !Last(cursor, outcome)
    ensures Underway(plan, maxRounds, pass, Next(cursor, outcome), trail + [Next(cursor, outcome)], IdsAfter(outcome, ids))
  {
    RoundKeeps(cursor, pass, ids);
    TrailGrows(trail, ids, IdsAfter(outcome, ids), Next(cursor, outcome));
    ThreadGrows(plan, maxRounds, pass, trail, Next(cursor, outcome));
  }

  lemma ThreadGrows(plan: Plan, maxRounds: nat, pass: Cursor -> PassExit, trail: seq<Cursor>, next: Cursor)
    requires Threaded(plan, maxRounds, pass, trail) && HandsOn(maxRounds, pass, trail[|trail| - 1], next)
    ensures Threaded(plan, maxRounds, pass, trail + [next])
  {
    var all := trail + [next];
    forall k | 0 < k < |all| ensures HandsOn(maxRounds, pass, all[k - 1], all[k]) {
      if k < |trail| { assert all[k] == trail[k] && all[k - 1] == trail[k - 1]; }
    }
  }

  /** Whether a run answers Validated or Blocked, read off the last pass: early feedback is never a validation. */
  lemma AnswerFromLastPass(
    plan: Plan, maxRounds: nat, pass: Cursor -> PassExit, trail: seq<Cursor>, ids: Option<seq<string>>,
    r: Option<CorrectionResult>)
    requires Environment(plan, pass) && Traced(plan, maxRounds, pass, trail, ids, r) && r.Some?
    ensures var exit := pass(trail[|trail| - 1]);
      && (r.value.status == Corrected(Validated) <==> exit.Completed? && exit.result.status == Validated)
      && (r.value.status == Blocked <==> exit.Broke? || (exit.Early? && exit.ack.NotStopped?))
      && (r.value.status == Corrected(ChangesRequested) ==> |trail| == maxRounds)
  {
    var cursor := trail[|trail| - 1];
    LastAsksForChanges(plan, pass, trail, ids);
    AnswerMeans(maxRounds, cursor, pass(cursor), r);
    assert cursor.round == |trail|;
  }

  lemma LastAsksForChanges(plan: Plan, pass: Cursor -> PassExit, trail: seq<Cursor>, ids: Option<seq<string>>)
    requires Environment(plan, pass) && trail != [] && TrailOk(trail, ids) && trail[|trail| - 1].plan == plan
    ensures var exit := pass(trail[|trail| - 1]); exit.Early? ==> exit.result.status == ChangesRequested
  {
    var cursor := trail[|trail| - 1];
    assert Asked(pass, cursor);
    EarlyAsksForChanges(cursor, pass(cursor), ids);
  }

  lemma AnswerMeans(maxRounds: nat, cursor: Cursor, exit: PassExit, r: Option<CorrectionResult>)
    requires Answers(maxRounds, cursor, exit, r) && r.Some? && (exit.Early? ==> exit.result.status == ChangesRequested)
    ensures r.value.status == Corrected(Validated) <==> exit.Completed? && exit.result.status == Validated
    ensures r.value.status == Blocked <==> exit.Broke? || (exit.Early? && exit.ack.NotStopped?)
    ensures r.value.status == Corrected(ChangesRequested) ==> cursor.round == maxRounds
  {
  }

  lemma EarlyAsksForChanges(cursor: Cursor, exit: PassExit, ids: Option<seq<string>>)
    requires CursorOk(cursor, ids) && PassCan(cursor.plan, cursor.previous, exit)
    ensures exit.Early? ==> exit.result.status == ChangesRequested
  {
    if exit.Early? {
      match cursor.previous
      case None =>
        var steps, r :| Raises(cursor.plan, Observe, steps, r, exit.result);
        RaisedLength(cursor.plan, Observe, steps, r);
      case Some(previous) =>
        var input, groups, steps, r :|
          Refreshes(cursor.plan, previous, input, groups) && Raises(cursor.plan, Recheck(groups), steps, r, exit.result);
        RaisedLength(cursor.plan, Recheck(groups), steps, r);
    }
  }

  /**
   * The round trampoline. `pass` is any environment whose passes can end as it says. Every run ends within the bound;
   * every known result, final or intermediate, is well formed over one fixed list of native identities; validated means
   * trustworthy; unresolved findings are reported only at the bound; a blocked finish keeps the last known result; a
   * plan that validation refuses is blocked in the first round.
   */
  method CorrectPlan(plan: Plan, maxRounds: nat, pass: Cursor -> PassExit)
    returns (r: Option<CorrectionResult>, ghost trail: seq<Cursor>, ghost ids: Option<seq<string>>)
    requires Environment(plan, pass)
    requires 1 <= maxRounds <= 8  // by schema
    ensures Traced(plan, maxRounds, pass, trail, ids, r)
    ensures r.Some? ==> Sound(plan, maxRounds, r.value)
  {
    var cursor := Cursor(plan, maxRounds, 1, None);
    trail, ids := [cursor], None;
    FirstRound(plan, maxRounds, pass);
    while true
      invariant Underway(plan, maxRounds, pass, cursor, trail, ids)
      decreases maxRounds - cursor.round
    {
      var outcome := RunRound(pass(cursor));
      if outcome.None? {
        InterruptedRound(plan, maxRounds, pass, cursor, trail, ids);
        return None, trail, ids;
      }
      if Last(cursor, outcome.value) {
        LastRound(plan, maxRounds, pass, cursor, trail, ids, outcome.value);
        return Some(Finish(cursor, outcome.value)), trail, IdsAfter(outcome.value, ids);
      }
      NextRound(plan, maxRounds, pass, cursor, trail, ids, outcome.value);
      cursor, ids := Next(cursor, outcome.value), IdsAfter(outcome.value, ids);
      trail := trail + [cursor];
    }
  }
}
