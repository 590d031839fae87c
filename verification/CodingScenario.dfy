/** One plan of two Changes, spelled out: the inputs behind the refusals of `CodingFeedbackRuns` exist. */
module CodingScenario {
  import opened Wrappers
  import opened CodingSchema
  import opened CodingWorkflow
  import opened CodingAtoms
  import opened CodingCorrection
  import opened CodingFeedback
  import opened CodingFeedbackRuns
  import opened CodingRounds

  const LINT: Check := Check("lint", "lint", "flow", "digest", Fast, true)
  const SUITE: Check := Check("suite", "suite", "flow", "digest", Slow, true)

  const BASE: Revision := Revision("base", "b0", "t0", "op", ["root"])
  const X0: Revision := Revision("x", "x0", "t0", "op", ["b0"])
  const Y0: Revision := Revision("y", "y0", "t0", "op", ["x0"])
  const X1: Revision := Revision("x", "x1", "t1", "op", ["b0"])  // x edited
  const Y1: Revision := Revision("y", "y1", "t1", "op", ["x1"])  // y restacked onto it

  function Existing(id: string): AtomicPlan {
    AtomicPlan(Some(id), "message", "intent", [], [])
  }

  function OneAtom(id: string, atom: string): Change {
    Change(id, "title", "intent", "delegate", "digest", [Existing(atom)], [LINT, SUITE])
  }

  function Of(change: string, parent: Revision, atom: Revision): Implementation {
    Implementation(change, parent, [atom], atom, [], [])
  }

  const CHANGE_A: Change := OneAtom("A", "x")
  const CHANGE_B: Change := OneAtom("B", "y")

  lemma TwoChecks(change: Change)
    requires change.checks == [LINT, SUITE]
    ensures ChecksValid(change)
    ensures OfTier(change.checks, Fast) == [LINT] && OfTier(change.checks, Slow) == [SUITE]
  {
    assert CheckIds(change.checks) == ["lint", "suite"];
    TwoDistinct("lint", "suite");
    assert LINT in change.checks && SUITE in change.checks;
    assert change.checks[..1] == [LINT] && change.checks[..1][..0] == [];
    assert OfTier(change.checks[..1][..0], Fast) == [] && OfTier(change.checks[..1][..0], Slow) == [];
    assert OfTier(change.checks[..1], Fast) == [LINT] && OfTier(change.checks[..1], Slow) == [];
  }

  /** A one-atom implementation of its Change is in order. */
  lemma InOrder(change: Change, parent: Revision, atom: Revision)
    requires change.atoms == [Existing(atom.changeId)] && OnlyParent(atom, parent) && atom.changeId != parent.changeId
    ensures Implements(change, parent, Of(change.id, parent, atom))
  {
    var atoms := [atom];
    assert Before(parent, atoms, 0) == parent;
    assert [parent.changeId] + AtomIds(atoms) == [parent.changeId, atom.changeId];
    TwoDistinct(parent.changeId, atom.changeId);
  }

  // ---- a misattributed fast receipt ------------------------------------------------------------------

  const PLAN_A: Plan := Plan("prompt", "memory", BASE, None, [CHANGE_A])

  /** A passed fast receipt that blames a Change the plan does not have. */
  const BLAMES_NOBODY: Receipt := ReceiptFor(Of("A", BASE, X0), LINT, Passed, [Finding("nobody", "message", "x0")])

  lemma OneOwner(change: Change, id: string)
    requires change.atoms == [Existing(id)]
    ensures FlatAtoms([change]) == change.atoms && ExistingIds(change.atoms) == [id]
  {
    assert [change][..0] == [] && change.atoms[..0] == [];
    assert FlatAtoms([]) == [] && ExistingIds([]) == [];
  }

  lemma OneChangeValid(plan: Plan, change: Change, id: string)
    requires plan.changes == [change] && change.checks == [LINT, SUITE] && change.atoms == [Existing(id)]
    ensures ValidPlan(plan)
  {
    TwoChecks(change);
    OneOwner(change, id);
    OneDistinct(change.id);
    OneDistinct(id);
    assert ChangeIds(plan.changes) == [change.id];
  }

  lemma OneDistinct(id: string)
    ensures Distinct([id])
  {
    Admit([], id);
    assert [] + [id] == [id];
  }

  /** A passed receipt of the one fast check is all the gate asks for, whatever its findings. */
  lemma OneFastGate(change: Change, parent: Revision, implementation: Implementation, r: Receipt)
    requires change.checks == [LINT, SUITE] && Implements(change, parent, implementation)
    requires ReceiptMatches(implementation, LINT, r) && r.status == Passed
    ensures Gated(change, parent, ValidatedChange(implementation, [r]))
  {
    TwoChecks(change);
    LintLooked(r);
    OnlyLint(change, implementation, FastRecord([LINT], [r]), r);
  }

  lemma LintLooked(r: Receipt)
    ensures Lookup(FastRecord([LINT], [r]), "lint") == Some(r)
  {
    OneDistinct("lint");
    assert CheckIds([LINT]) == ["lint"];
    LookupOwn([LINT], [r], 0);
  }

  lemma OnlyLint(change: Change, implementation: Implementation, record: ReceiptRecord, r: Receipt)
    requires change.checks == [LINT, SUITE] && Lookup(record, "lint") == Some(r)
    requires ReceiptMatches(implementation, LINT, r) && r.status == Passed
    ensures forall c :: c in change.checks && c.tier == Fast ==> FastReceiptOk(implementation, c, Lookup(record, c.id))
  {
  }

  /** A failed required check has findings even if its receipt lists none. */
  lemma FailedIsActionable(plan: Plan, change: Change, implementation: Implementation)
    requires plan.changes == [change] && change.checks == [LINT, SUITE] && implementation.change == change.id
    ensures Actionable(plan, SlowCheck(0, SUITE), SlowPayload(implementation, ReceiptFor(implementation, SUITE, Failed, [])))
  {
    assert change.checks[1] == SUITE && SUITE in plan.changes[0].checks;
  }

  lemma NobodyOwns(plan: Plan, change: Change, implementation: Implementation, r: Receipt, f: Finding)
    requires plan.changes == [change] && f in r.findings && f.owner != change.id
    ensures !Attributed(plan, 0, implementation, r)
  {
    var i := OwnerIndex(plan.changes, f.owner);
  }

  /** The gate accepts it, the first slow finding then triggers gathering, and gathering refuses. */
  lemma BlamesNobodyRefuses() returns (steps: seq<Step>)
    ensures ValidPlan(PLAN_A) && Gated(CHANGE_A, BASE, ValidatedChange(Of("A", BASE, X0), [BLAMES_NOBODY]))
    ensures Run(PLAN_A, Observe, steps) && SlowCheck(0, SUITE) in After(PLAN_A, steps).procs
    ensures var phase := After(PLAN_A, steps).procs[SlowCheck(0, SUITE)].phase;
      phase.Refusing? && phase.error == InvalidReceipt(Misattributed)
  {
    InOrder(CHANGE_A, BASE, X0);
    steps := BlamingRefuses(PLAN_A, CHANGE_A, "x", Of("A", BASE, X0), BLAMES_NOBODY, Finding("nobody", "message", "x0"));
  }

  /** The same for any such plan and receipt. */
  lemma BlamingRefuses(
    plan: Plan, change: Change, id: string, implementation: Implementation, r: Receipt, f: Finding) returns (steps: seq<Step>)
    requires plan.changes == [change] && change.checks == [LINT, SUITE] && change.atoms == [Existing(id)]
    requires Implements(change, plan.base, implementation)
    requires ReceiptMatches(implementation, LINT, r) && r.status == Passed && f in r.findings && f.owner != change.id
    ensures ValidPlan(plan) && Gated(change, plan.base, ValidatedChange(implementation, [r]))
    ensures Run(plan, Observe, steps) && SlowCheck(0, SUITE) in After(plan, steps).procs
    ensures var phase := After(plan, steps).procs[SlowCheck(0, SUITE)].phase;
      phase.Refusing? && phase.error == InvalidReceipt(Misattributed)
  {
    OneChangeValid(plan, change, id);
    OneFastGate(change, plan.base, implementation, r);
    NobodyOwns(plan, change, implementation, r, f);
    FailedIsActionable(plan, change, implementation);
    TwoChecks(change);
    var group := ValidatedChange(implementation, [r]);
    assert r in group.receipts;
    steps := MisattributionRefuses(plan, group, SUITE, ReceiptFor(implementation, SUITE, Failed, []));
  }

  // ---- a repair whose recheck misses an implementation -----------------------------------------------

  const PLAN_AB: Plan := Plan("prompt", "memory", BASE, None, [CHANGE_A, CHANGE_B])
  const BLAME: Finding := Finding("A", "message", "x0")

  const OLD_A: ValidatedChange := ValidatedChange(Of("A", BASE, X0),
    [ReceiptFor(Of("A", BASE, X0), LINT, Passed, []), ReceiptFor(Of("A", BASE, X0), SUITE, Failed, [BLAME])])
  const OLD_B: ValidatedChange := ValidatedChange(Of("B", X0, Y0),
    [ReceiptFor(Of("B", X0, Y0), LINT, Passed, []), ReceiptFor(Of("B", X0, Y0), SUITE, Passed, [])])
  const OLD: Result := Result(ChangesRequested, [OLD_A, OLD_B], [BLAME])

  const READ: ReadResult := ReadResult("op", Resolved(Y1), [Resolved(BASE), Resolved(X1), Resolved(Y1)])
  const EDIT: Input := Input(PLAN_AB, OLD, Repair(CHANGE_A, BASE, "memory", 0, 0), Of("A", BASE, X1), READ)

  const NEW_A: ValidatedChange := ValidatedChange(Of("A", BASE, X1), [])
  const NEW_B: ValidatedChange := ValidatedChange(Of("B", X1, Y1), [])

  lemma TwoChangesValid(plan: Plan, first: Change, second: Change, a: string, b: string)
    requires plan.changes == [first, second] && first.checks == second.checks == [LINT, SUITE] && first.id != second.id
    requires first.atoms == [Existing(a)] && second.atoms == [Existing(b)] && a != b
    ensures ValidPlan(plan)
  {
    TwoChecks(first);
    TwoChecks(second);
    assert ChangeIds(plan.changes) == [first.id, second.id];
    TwoDistinct(first.id, second.id);
    TwoOwners(first, second, a, b);
    TwoDistinct(a, b);
  }

  lemma TwoOwners(first: Change, second: Change, a: string, b: string)
    requires first.atoms == [Existing(a)] && second.atoms == [Existing(b)]
    ensures ExistingIds(FlatAtoms([first, second])) == [a, b]
  {
    OneOwner(first, a);
    OneOwner(second, b);
    assert [first, second][..1] == [first];
    ExistingIdsAppend(first.atoms, second.atoms);
  }

  lemma ReadResolves()
    ensures Resolve(READ, "base") == Some(BASE) && Resolve(READ, "x") == Some(X1) && Resolve(READ, "y") == Some(Y1)
  {
    assert OnlyAt(READ.revisions, "base", 0) && OnlyAt(READ.revisions, "x", 1) && OnlyAt(READ.revisions, "y", 2);
    NamedAt(READ.revisions, "base", 0);
    NamedAt(READ.revisions, "x", 1);
    NamedAt(READ.revisions, "y", 2);
  }

  /** The previous result is what a pass hands on: linear, identity-keeping, with exact evidence. */
  lemma OldWellFormed()
    ensures WellFormed(PLAN_AB, OLD.changes)
  {
    assert Before(BASE, [X0], 0) == BASE && Before(X0, [Y0], 0) == X0;
    assert Foot(BASE, OLD.changes, 0) == BASE && Foot(BASE, OLD.changes, 1) == X0;
    assert LINT in CHANGE_A.checks && SUITE in CHANGE_A.checks && LINT in CHANGE_B.checks && SUITE in CHANGE_B.checks;
    assert GroupFits(CHANGE_A, OLD_A) && GroupFits(CHANGE_B, OLD_B);
  }

  /** Editing x restacks y: both groups are rebuilt and keep no receipt. */
  lemma EditRefreshes()
    ensures Refreshes(PLAN_AB, OLD, EDIT, [NEW_A, NEW_B])
  {
    EditRestacks();
    assert Reconstructed(EDIT, 0) == NEW_A && Reconstructed(EDIT, 1) == NEW_B;
  }

  lemma EditRestacks()
    ensures Restackable(EDIT) && Refreshed(READ, [X0]) == [X1] && Refreshed(READ, [Y0]) == [Y1]
    ensures Current(READ, BASE) == BASE && Current(READ, X0) == X1
  {
    ReadResolves();
    assert Refreshed(READ, [X0]) == [X1] && Refreshed(READ, [Y0]) == [Y1];
    assert Before(BASE, [X1], 0) == BASE && Before(X1, [Y1], 0) == X1;
    assert Restacks(EDIT, 0);
    assert Below(EDIT, 1) == X1;
    assert Restacks(EDIT, 1);
  }

  /** A real repair of a well-formed result whose recheck has a run ending in the missing-implementation refusal. */
  lemma RepairedRecheckMisses() returns (steps: seq<Step>)
    ensures ValidPlan(PLAN_AB) && WellFormed(PLAN_AB, OLD.changes) && Refreshes(PLAN_AB, OLD, EDIT, [NEW_A, NEW_B])
    ensures Misses(PLAN_AB, [NEW_A, NEW_B], steps, SlowCheck(1, SUITE))
  {
    TwoChangesValid(PLAN_AB, CHANGE_A, CHANGE_B, "x", "y");
    OldWellFormed();
    EditRefreshes();
    FreshCanGate(CHANGE_B, X1, Y1);
    FreshCanFind(PLAN_AB, [NEW_A, NEW_B], 1);
    steps := CanMiss(PLAN_AB, [NEW_A, NEW_B], 1, SUITE);
  }

  /** Without saved receipts a gate in order can be passed, and a slow check can report findings. */
  lemma FreshCanGate(change: Change, parent: Revision, atom: Revision)
    requires change.atoms == [Existing(atom.changeId)] && OnlyParent(atom, parent) && atom.changeId != parent.changeId
    ensures CanGate(change, ValidatedChange(Of(change.id, parent, atom), []))
  {
    InOrder(change, parent, atom);
  }

  lemma FreshCanFind(plan: Plan, refreshed: seq<ValidatedChange>, i: nat)
    requires i < |plan.changes| == |refreshed| && plan.changes[i].checks == [LINT, SUITE]
    requires refreshed[i].receipts == [] && refreshed[i].implementation.change == plan.changes[i].id
    ensures CanFind(plan, refreshed, i, SUITE)
  {
    TwoChecks(plan.changes[i]);
  }
}
