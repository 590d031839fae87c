/**
 * A pass that runs to completion, over whatever the implementers and the checks answer: what `CodingRounds` takes a
 * completed pass to be follows from the gate, the slow records and the assessment.
 */
module CodingPasses {
  import opened Wrappers
  import opened CodingSchema
  import opened CodingWorkflow
  import opened CodingCorrection
  import opened CodingFeedback
  import opened CodingRounds

  /** What one Change's calls returned: its implementation and a receipt per planned fast and slow check. */
  datatype Answers = Answers(implementation: Implementation, fast: seq<Receipt>, slow: seq<Receipt>)

  /** One answer per planned call, with the atoms their schemas demand. */
  ghost predicate Answered(plan: Plan, answers: seq<Answers>) {
    && |answers| == |plan.changes|
    && forall i {:trigger Pos(answers, i)} :: Pos(answers, i) ==> AnsweredAt(plan.changes[i], answers[i])
  }

  predicate AnsweredAt(change: Change, a: Answers) {
    && |change.atoms| > 0 && |a.implementation.atoms| > 0
    && |a.fast| == |OfTier(change.checks, Fast)| && |a.slow| == |OfTier(change.checks, Slow)|
  }

  /** Every slow record accepts its receipt. */
  ghost predicate SlowAccepted(plan: Plan, i: nat, implementation: Implementation, slow: seq<Receipt>)
    requires i < |plan.changes| && |slow| == |Slows(plan, i)|
  {
    forall k :: 0 <= k < |slow| ==> ReceiptFindings(plan, i, implementation, Slows(plan, i)[k], slow[k]).Ok?
  }

  /** What one Change's answers come to: its implementation with the fast receipts, then the slow ones. */
  function GroupOf(a: Answers): ValidatedChange {
    ValidatedChange(a.implementation, a.fast + a.slow)
  }

  function GroupsOf(answers: seq<Answers>): (groups: seq<ValidatedChange>)
    ensures |groups| == |answers| && forall k :: 0 <= k < |groups| ==> groups[k] == GroupOf(answers[k])
  {
    seq(|answers|, k requires 0 <= k < |answers| => GroupOf(answers[k]))
  }

  /** Gate one Change on its foot and record its slow receipts. */
  method Stage(plan: Plan, i: nat, foot: Revision, a: Answers) returns (r: Outcome<ValidatedChange>)
    requires i < |plan.changes| && AnsweredAt(plan.changes[i], a)
    ensures r.Ok? <==>
      && GateAccepts(plan.changes[i], foot, a.implementation, FastRecord(OfTier(plan.changes[i].checks, Fast), a.fast))
      && SlowAccepted(plan, i, a.implementation, a.slow)
    ensures r.Ok? <==> Staged(plan, i, foot, GroupOf(a))
    ensures r.Ok? ==> r.value == GroupOf(a)
  {
    StagedExactly(plan, i, foot, a);
    var gated := FastGate(plan.changes[i], foot, a.implementation, FastRecord(OfTier(plan.changes[i].checks, Fast), a.fast));
    if gated.Refused? { return Refused(gated.error); }
    var fault := SlowRecords(plan, i, a.implementation, a.slow);
    if fault.Some? { return Refused(fault.value); }
    r := Ok(ValidatedChange(a.implementation, a.fast + a.slow));
  }

  method SlowRecords(plan: Plan, i: nat, implementation: Implementation, slow: seq<Receipt>) returns (fault: Option<Refusal>)
    requires i < |plan.changes| && |slow| == |Slows(plan, i)|
    ensures fault.None? <==> SlowAccepted(plan, i, implementation, slow)
  {
    var slows := Slows(plan, i);
    for k := 0 to |slows|
      invariant forall j :: 0 <= j < k ==> ReceiptFindings(plan, i, implementation, slows[j], slow[j]).Ok?
    {
      var findings := ReceiptFindings(plan, i, implementation, slows[k], slow[k]);
      if findings.Refused? { return Some(findings.error); }
    }
    fault := None;
  }

  lemma StagedExactly(plan: Plan, i: nat, foot: Revision, a: Answers)
    requires i < |plan.changes| && AnsweredAt(plan.changes[i], a)
    ensures Staged(plan, i, foot, GroupOf(a)) <==>
      && GateAccepts(plan.changes[i], foot, a.implementation, FastRecord(OfTier(plan.changes[i].checks, Fast), a.fast))
      && SlowAccepted(plan, i, a.implementation, a.slow)
  {
    var group := GroupOf(a);
    assert group.receipts[..|a.fast|] == a.fast;
    assert group.(receipts := a.fast) == ValidatedChange(a.implementation, a.fast);
    assert forall k :: 0 <= k < |a.slow| ==> group.receipts[|a.fast| + k] == a.slow[k];
  }

  /** From `index` on, each group is staged on the head of the one before it. */
  ghost predicate StagedFrom(plan: Plan, index: nat, foot: Revision, groups: seq<ValidatedChange>) {
    && index + |groups| == |plan.changes|
    && forall k {:trigger Foot(foot, groups, k)} :: 0 <= k < |groups| ==>
         Staged(plan, index + k, Foot(foot, groups, k), groups[k])
  }

  /** The recursion of `stages`: each Change starts from the head its predecessor's gate let through. */
  method Stages(plan: Plan, index: nat, foot: Revision, answers: seq<Answers>) returns (r: Outcome<seq<ValidatedChange>>)
    requires Answered(plan, answers) && index <= |plan.changes|
    ensures r.Ok? <==> StagedFrom(plan, index, foot, GroupsOf(answers[index..]))
    ensures r.Ok? ==> r.value == GroupsOf(answers[index..])
    decreases |plan.changes| - index
  {
    if index == |plan.changes| {
      StagedNone(plan, foot);
      return Ok([]);
    }
    AnsweredOne(plan, answers, index);
    StagedCons(plan, index, foot, GroupOf(answers[index]), GroupsOf(answers[index + 1..]));
    assert GroupsOf(answers[index..]) == [GroupOf(answers[index])] + GroupsOf(answers[index + 1..]);
    var first := Stage(plan, index, foot, answers[index]);
    if first.Refused? { return Refused(first.error); }
    var rest := Stages(plan, index + 1, first.value.implementation.head, answers);
    if rest.Refused? { return rest; }
    r := Ok([first.value] + rest.value);
  }

  lemma AnsweredOne(plan: Plan, answers: seq<Answers>, i: nat)
    requires Answered(plan, answers) && i < |plan.changes|
    ensures AnsweredAt(plan.changes[i], answers[i])
  {
    assert Pos(answers, i);
  }

  lemma StagedNone(plan: Plan, foot: Revision)
    ensures StagedFrom(plan, |plan.changes|, foot, [])
  {
  }

  lemma StagedCons(plan: Plan, index: nat, foot: Revision, first: ValidatedChange, rest: seq<ValidatedChange>)
    requires index < |plan.changes|
    ensures StagedFrom(plan, index, foot, [first] + rest) <==>
      Staged(plan, index, foot, first) && StagedFrom(plan, index + 1, first.implementation.head, rest)
  {
    var all, head := [first] + rest, first.implementation.head;
    assert all[0] == first && Foot(foot, all, 0) == foot;
    forall k | 0 <= k < |rest|
      ensures all[k + 1] == rest[k] && Foot(foot, all, k + 1) == Foot(head, rest, k)
    {
    }
  }

  /** The first pass, run to completion: validate, stage every Change, assess. */
  method FirstPass(plan: Plan, answers: seq<Answers>) returns (r: Outcome<Result>)
    requires Answered(plan, answers)
    ensures r.Ok? <==>
      ValidPlan(plan) && StagedFrom(plan, 0, plan.base, GroupsOf(answers)) && Assessable(plan, GroupsOf(answers))
    ensures r.Ok? ==> r.value.changes == GroupsOf(answers) && FirstPassCan(plan, Completed(r.value))
  {
    var valid := ValidatePlan(plan);
    if valid.Refused? { return Refused(valid.error); }
    assert answers[0..] == answers;
    var groups := Stages(plan, 0, plan.base, answers);
    if groups.Refused? { return Refused(groups.error); }
    var result := Assess(plan, groups.value);
    if result.Refused? { return result; }
    r := result;
    StagedCompletes(plan, r.value);
  }

  lemma StagedCompletes(plan: Plan, result: Result)
    requires ValidPlan(plan) && StagedFrom(plan, 0, plan.base, result.changes) && Assessed(plan, result)
    ensures FirstPassCan(plan, Completed(result))
  {
    forall i | 0 <= i < |result.changes|
      ensures Staged(plan, i, Foot(plan.base, result.changes, i), result.changes[i])
    {
      assert Staged(plan, 0 + i, Foot(plan.base, result.changes, i), result.changes[i]);
    }
  }

  // ---- the recheck ---------------------------------------------------------------------------------

  /** The first saved receipt for exactly this input where the group has one, otherwise what the check returned. */
  ghost predicate HandsOver(group: ValidatedChange, check: Check, returned: Receipt, r: Receipt) {
    if exists x :: x in group.receipts && ReceiptMatches(group.implementation, check, x)
    then exists j: nat :: FirstExact(group.implementation, check, group.receipts, j) && r == group.receipts[j]
    else r == returned
  }

  function Handed(group: ValidatedChange, checks: seq<Check>, returned: seq<Receipt>): (rs: seq<Receipt>)
    requires |checks| == |returned|
    ensures |rs| == |checks| && AllReused(group, checks, rs)
    ensures forall k :: 0 <= k < |rs| ==> rs[k] == HandedOne(group, checks[k], returned[k])
  {
    seq(|checks|, k requires 0 <= k < |checks| => HandedOne(group, checks[k], returned[k]))
  }

  function HandedOne(group: ValidatedChange, check: Check, returned: Receipt): Receipt {
    var saved := FindExact(group.implementation, check, group.receipts);
    if saved.Some? then saved.value else returned
  }

  lemma HandedExactly(group: ValidatedChange, check: Check, returned: Receipt, r: Receipt)
    ensures r == HandedOne(group, check, returned) <==> HandsOver(group, check, returned, r)
  {
    if FindExact(group.implementation, check, group.receipts).Some? {
      var j := FindsFirstExact(group.implementation, check, group.receipts);
      assert FirstExact(group.implementation, check, group.receipts, j);
      assert forall k: nat :: FirstExact(group.implementation, check, group.receipts, k) ==> k == j;
    }
  }

  ghost predicate HandsAll(group: ValidatedChange, checks: seq<Check>, returned: seq<Receipt>, rs: seq<Receipt>) {
    && |rs| == |checks| == |returned|
    && forall k :: 0 <= k < |rs| ==> HandsOver(group, checks[k], returned[k], rs[k])
  }

  lemma HandsAllExactly(group: ValidatedChange, checks: seq<Check>, returned: seq<Receipt>, rs: seq<Receipt>)
    requires |checks| == |returned|
    ensures HandsAll(group, checks, returned, rs) <==> rs == Handed(group, checks, returned)
  {
    forall k | 0 <= k < |rs| == |checks|
      ensures rs[k] == HandedOne(group, checks[k], returned[k]) <==> HandsOver(group, checks[k], returned[k], rs[k])
    {
      HandedExactly(group, checks[k], returned[k], rs[k]);
    }
  }

  /** What the graph of `repairChecks` hands to the gate and the slow records of one refreshed group. */
  function Refilled(change: Change, group: ValidatedChange, a: Answers): Answers
    requires |a.fast| == |OfTier(change.checks, Fast)| && |a.slow| == |OfTier(change.checks, Slow)|
  {
    Answers(group.implementation, Handed(group, OfTier(change.checks, Fast), a.fast),
            Handed(group, OfTier(change.checks, Slow), a.slow))
  }

  /** `group` carries what is handed over for `was`: fast checks, then slow ones, each in plan order. */
  ghost predicate Refills(change: Change, was: ValidatedChange, a: Answers, group: ValidatedChange) {
    && group.implementation == was.implementation && |a.fast| <= |group.receipts|
    && HandsAll(was, OfTier(change.checks, Fast), a.fast, group.receipts[..|a.fast|])
    && HandsAll(was, OfTier(change.checks, Slow), a.slow, group.receipts[|a.fast|..])
  }

  lemma RefillsExactly(change: Change, was: ValidatedChange, a: Answers, group: ValidatedChange)
    requires |a.fast| == |OfTier(change.checks, Fast)| && |a.slow| == |OfTier(change.checks, Slow)|
    ensures Refills(change, was, a, group) <==> group == GroupOf(Refilled(change, was, a))
  {
    var fast := Handed(was, OfTier(change.checks, Fast), a.fast);
    var slow := Handed(was, OfTier(change.checks, Slow), a.slow);
    assert (fast + slow)[..|a.fast|] == fast && (fast + slow)[|a.fast|..] == slow;
    if |a.fast| <= |group.receipts| {
      var early, late := group.receipts[..|a.fast|], group.receipts[|a.fast|..];
      assert group.receipts == early + late;
      HandsAllExactly(was, OfTier(change.checks, Fast), a.fast, early);
      HandsAllExactly(was, OfTier(change.checks, Slow), a.slow, late);
    }
  }

  /** Group `i` of `done` refills the refreshed one and is staged on that one's own parent. */
  ghost predicate RecheckedAt(plan: Plan, groups: seq<ValidatedChange>, answers: seq<Answers>, i: nat, group: ValidatedChange) {
    && i < |groups| == |plan.changes| == |answers|
    && Refills(plan.changes[i], groups[i], answers[i], group)
    && Staged(plan, i, groups[i].implementation.parent, group)
  }

  ghost predicate RecheckedSoFar(
    plan: Plan, groups: seq<ValidatedChange>, answers: seq<Answers>, done: seq<ValidatedChange>)
  {
    |done| <= |groups| && forall i: nat :: i < |done| ==> RecheckedAt(plan, groups, answers, i, done[i])
  }

  /** The one recheck these answers can give: every group refilled, staged on its own parent, and the whole assessable. */
  ghost predicate RecheckedTo(plan: Plan, groups: seq<ValidatedChange>, answers: seq<Answers>, done: seq<ValidatedChange>) {
    |done| == |groups| && RecheckedSoFar(plan, groups, answers, done) && Assessable(plan, done)
  }

  /** Some recheck is possible with these answers. */
  ghost predicate Recheckable(plan: Plan, groups: seq<ValidatedChange>, answers: seq<Answers>) {
    exists done :: RecheckedTo(plan, groups, answers, done)
  }

  /** The recheck of refreshed groups, run to completion: gate each on its own parent, record, assess. */
  method RecheckPass(plan: Plan, groups: seq<ValidatedChange>, answers: seq<Answers>) returns (r: Outcome<Result>)
    requires Answered(plan, answers) && |groups| == |plan.changes| && Shaped(groups)
    ensures r.Ok? <==> Recheckable(plan, groups, answers)
    ensures r.Ok? ==> RecheckedTo(plan, groups, answers, r.value.changes) && Rechecks(plan, groups, r.value)
  {
    var done: seq<ValidatedChange> := [];
    for i := 0 to |groups|
      invariant |done| == i && RecheckedSoFar(plan, groups, answers, done)
    {
      var group := RecheckOne(plan, groups, answers, i);
      if group.Refused? { return Refused(group.error); }
      RecheckedSnoc(plan, groups, answers, done, group.value);
      done := done + [group.value];
    }
    OneRecheck(plan, groups, answers, done);
    r := Assess(plan, done);
    if r.Ok? { RecheckedCompletes(plan, groups, answers, r.value); }
  }

  /** Gate and record one refreshed group over the receipts handed over for it. */
  method RecheckOne(plan: Plan, groups: seq<ValidatedChange>, answers: seq<Answers>, i: nat) returns (r: Outcome<ValidatedChange>)
    requires Answered(plan, answers) && i < |groups| == |plan.changes| && |groups[i].implementation.atoms| > 0
    ensures r.Ok? ==> RecheckedAt(plan, groups, answers, i, r.value)
    ensures r.Refused? ==> !Recheckable(plan, groups, answers)
  {
    AnsweredOne(plan, answers, i);
    var refilled := Refilled(plan.changes[i], groups[i], answers[i]);
    RefillsExactly(plan.changes[i], groups[i], answers[i], GroupOf(refilled));
    r := Stage(plan, i, groups[i].implementation.parent, refilled);
    if r.Refused? { NotRechecked(plan, groups, answers, i); }
  }

  lemma RecheckedSnoc(
    plan: Plan, groups: seq<ValidatedChange>, answers: seq<Answers>, done: seq<ValidatedChange>, group: ValidatedChange)
    requires RecheckedSoFar(plan, groups, answers, done) && RecheckedAt(plan, groups, answers, |done|, group)
    ensures RecheckedSoFar(plan, groups, answers, done + [group])
  {
  }

  lemma RecheckedCompletes(plan: Plan, groups: seq<ValidatedChange>, answers: seq<Answers>, result: Result)
    requires |groups| == |plan.changes| && RecheckedTo(plan, groups, answers, result.changes) && Assessed(plan, result)
    ensures Rechecks(plan, groups, result)
  {
    forall i | 0 <= i < |groups|
      ensures result.changes[i].implementation == groups[i].implementation
      ensures Staged(plan, i, groups[i].implementation.parent, result.changes[i])
    {
      assert RecheckedAt(plan, groups, answers, i, result.changes[i]);
    }
  }

  lemma NotRechecked(plan: Plan, groups: seq<ValidatedChange>, answers: seq<Answers>, i: nat)
    requires Answered(plan, answers) && |groups| == |plan.changes| && i < |groups|
    requires AnsweredAt(plan.changes[i], answers[i])
    requires !Staged(plan, i, groups[i].implementation.parent, GroupOf(Refilled(plan.changes[i], groups[i], answers[i])))
    ensures !Recheckable(plan, groups, answers)
  {
    forall done | RecheckedTo(plan, groups, answers, done) ensures false {
      assert RecheckedAt(plan, groups, answers, i, done[i]);
      RefillsExactly(plan.changes[i], groups[i], answers[i], done[i]);
    }
  }

  /** The answers determine the rechecked groups. */
  lemma OneRecheck(plan: Plan, groups: seq<ValidatedChange>, answers: seq<Answers>, done: seq<ValidatedChange>)
    requires |done| == |groups| && RecheckedSoFar(plan, groups, answers, done)
    ensures Recheckable(plan, groups, answers) <==> Assessable(plan, done)
  {
    forall other | RecheckedTo(plan, groups, answers, other) ensures other == done {
      forall i | 0 <= i < |done| ensures other[i] == done[i] {
        assert RecheckedAt(plan, groups, answers, i, done[i]) && RecheckedAt(plan, groups, answers, i, other[i]);
        RefillsExactly(plan.changes[i], groups[i], answers[i], done[i]);
        RefillsExactly(plan.changes[i], groups[i], answers[i], other[i]);
      }
    }
    if Assessable(plan, done) { assert RecheckedTo(plan, groups, answers, done); }
  }
}
