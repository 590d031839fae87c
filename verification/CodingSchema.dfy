/** The records of flows/coding/schema.ts, receipt identity, and plan validation. */
module CodingSchema {
  import opened Wrappers

  datatype Revision = Revision(
    changeId: string, commitId: string, treeId: string, operationId: string, parentCommitIds: seq<string>)

  datatype AtomicPlan = AtomicPlan(
    changeId: Option<string>, message: string, intent: string, readFiles: seq<string>, writeFiles: seq<string>)

  datatype Tier = Fast | Slow | Delivery
  datatype Check = Check(id: string, target: string, flow: string, flowDigest: string, tier: Tier, required: bool)

  datatype Change = Change(
    id: string, title: string, intent: string, implementation: string, implementationDigest: string,
    atoms: seq<AtomicPlan>, checks: seq<Check>)

  datatype Plan = Plan(
    prompt: string, memoryRevision: string, base: Revision, observedHead: Option<Revision>, changes: seq<Change>)

  datatype Finding = Finding(owner: string, message: string, sourceCommitId: string)

  datatype Implementation = Implementation(
    change: string, parent: Revision, atoms: seq<Revision>, head: Revision, readFiles: seq<string>, writeFiles: seq<string>)

  /** A SHA-256 over canonical JSON, taken as injective; `Foreign` is any other text a receipt may carry. */
  datatype InputDigest = Canonical(implementation: Implementation, check: Check) | Foreign(text: string)

  datatype Status = Passed | Failed | Superseded
  datatype Receipt = Receipt(
    checkId: string, target: string, tier: Tier, change: string, commitId: string, treeId: string,
    inputDigest: InputDigest, status: Status, evidence: string, findings: seq<Finding>)

  datatype ValidatedChange = ValidatedChange(implementation: Implementation, receipts: seq<Receipt>)

  datatype ResultStatus = Validated | ChangesRequested
  datatype Result = Result(status: ResultStatus, changes: seq<ValidatedChange>, findings: seq<Finding>)

  predicate SameRevision(left: Revision, right: Revision): (same: bool)
    ensures same <==> left == right
  {
    && left.changeId == right.changeId && left.commitId == right.commitId && left.treeId == right.treeId
    && left.operationId == right.operationId && left.parentCommitIds == right.parentCommitIds
  }

  /** Operation IDs are read-view metadata; everything else identifies code. */
  predicate SameCode(left: Revision, right: Revision): (same: bool)
    ensures same <==> left == right.(operationId := left.operationId)
  {
    && left.changeId == right.changeId && left.commitId == right.commitId && left.treeId == right.treeId
    && left.parentCommitIds == right.parentCommitIds
  }

  function CheckInputDigest(implementation: Implementation, check: Check): InputDigest {
    Canonical(implementation, check)
  }

  /** Only status, evidence and findings of a matching receipt are free; see `MatchesExactly`. */
  predicate ReceiptMatches(implementation: Implementation, check: Check, receipt: Receipt) {
    && receipt.change == implementation.change && receipt.checkId == check.id && receipt.target == check.target
    && receipt.tier == check.tier && receipt.commitId == implementation.head.commitId
    && receipt.treeId == implementation.head.treeId
    && receipt.inputDigest == CheckInputDigest(implementation, check)
  }

  lemma MatchesExactly(implementation: Implementation, check: Check, receipt: Receipt)
    ensures ReceiptMatches(implementation, check, receipt) <==>
      receipt == Receipt(
        check.id, check.target, check.tier, implementation.change, implementation.head.commitId,
        implementation.head.treeId, Canonical(implementation, check), receipt.status, receipt.evidence, receipt.findings)
  {
  }

  /** Each atom's only parent is its predecessor, starting from `parent`. */
  ghost predicate Chained(parent: Revision, atoms: seq<Revision>) {
    forall k {:trigger Before(parent, atoms, k)} :: 0 <= k < |atoms| ==> OnlyParent(atoms[k], Before(parent, atoms, k))
  }

  function Before(parent: Revision, atoms: seq<Revision>, k: nat): Revision
    requires k <= |atoms|
  {
    if k == 0 then parent else atoms[k - 1]
  }

  predicate OnlyParent(atom: Revision, parent: Revision) {
    |atom.parentCommitIds| == 1 && atom.parentCommitIds[0] == parent.commitId
  }

  // ---- plan validation -------------------------------------------------------------------------

  function ExistingIds(atoms: seq<AtomicPlan>): seq<string> {
    if atoms == [] then []
    else
      var a := atoms[|atoms| - 1].changeId;
      ExistingIds(atoms[..|atoms| - 1]) + (if a.Some? then [a.value] else [])
  }

  function FlatAtoms(changes: seq<Change>): seq<AtomicPlan> {
    if changes == [] then [] else FlatAtoms(changes[..|changes| - 1]) + changes[|changes| - 1].atoms
  }

  lemma {:induction false} ExistingIdsAppend(a: seq<AtomicPlan>, b: seq<AtomicPlan>)
    ensures ExistingIds(a + b) == ExistingIds(a) + ExistingIds(b)
  {
    if b == [] {
      assert a + b == a;
    } else {
      assert (a + b)[..|a + b| - 1] == a + b[..|b| - 1];
      ExistingIdsAppend(a, b[..|b| - 1]);
    }
  }

  ghost predicate RequiresTier(checks: seq<Check>, tier: Tier) {
    exists c :: c in checks && c.required && c.tier == tier
  }

  ghost predicate ChecksValid(change: Change) {
    && Distinct(CheckIds(change.checks))
    && RequiresTier(change.checks, Fast)
    && RequiresTier(change.checks, Slow)
  }

  ghost predicate LacksTier(change: Change) {
    !RequiresTier(change.checks, Fast) || !RequiresTier(change.checks, Slow)
  }

  function CheckIds(checks: seq<Check>): (ids: seq<string>)
    ensures |ids| == |checks| && forall i :: 0 <= i < |ids| ==> ids[i] == checks[i].id
  {
    seq(|checks|, i requires 0 <= i < |checks| => checks[i].id)
  }

  function ChangeIds(changes: seq<Change>): (ids: seq<string>)
    ensures |ids| == |changes| && forall i :: 0 <= i < |ids| ==> ids[i] == changes[i].id
  {
    seq(|changes|, i requires 0 <= i < |changes| => changes[i].id)
  }

  /** What a plan must satisfy before any implementation or check is scheduled. */
  ghost predicate ValidPlan(plan: Plan) {
    && Distinct(ChangeIds(plan.changes))
    && AllChecksValid(plan.changes)
    && Distinct(ExistingIds(FlatAtoms(plan.changes)))
  }

  ghost predicate AllChecksValid(changes: seq<Change>) {
    forall i :: 0 <= i < |changes| ==> ChecksValid(changes[i])
  }

  /** The set-building loops of `validatePlan` accept exactly the valid plans, and each refusal names a real fault. */
  method ValidatePlan(plan: Plan) returns (r: Outcome<()>)
    ensures r.Ok? <==> ValidPlan(plan)
    ensures r.Refused? ==> r.error.InvalidPlan?
    ensures r == Refused(InvalidPlan(DuplicateChange)) ==> !Distinct(ChangeIds(plan.changes))
    ensures r == Refused(InvalidPlan(DuplicateNativeOwner)) ==> !Distinct(ExistingIds(FlatAtoms(plan.changes)))
    ensures r == Refused(InvalidPlan(DuplicateCheck)) ==>
              exists i :: 0 <= i < |plan.changes| && !Distinct(CheckIds(plan.changes[i].checks))
    ensures r == Refused(InvalidPlan(MissingRequiredCheck)) ==> exists i :: 0 <= i < |plan.changes| && LacksTier(plan.changes[i])
    ensures r.Refused? ==> r.error.plan in {DuplicateChange, DuplicateCheck, MissingRequiredCheck, DuplicateNativeOwner}
  {
    var changes := plan.changes;
    var groups: seq<string>, natives: seq<string> := [], [];
    for i := 0 to |changes|
      invariant groups == ChangeIds(changes[..i]) && Distinct(groups)
      invariant AllChecksValid(changes[..i])
      invariant natives == ExistingIds(FlatAtoms(changes[..i])) && Distinct(natives)
    {
      IdsStep(changes, i);
      var group := Claim(groups, [changes[i].id]);
      if group.None? { return Refused(InvalidPlan(DuplicateChange)); }
      var fault := CheckFault(changes[i]);
      if fault.Some? { return Refused(InvalidPlan(fault.value)); }
      ChecksStep(changes, i);
      NativesStep(changes, i);
      var owned := Claim(natives, ExistingIds(changes[i].atoms));
      if owned.None? { return Refused(InvalidPlan(DuplicateNativeOwner)); }
      groups, natives := group.value, owned.value;
    }
    assert changes[..|changes|] == changes;
    r := Ok(());
  }

  lemma ChecksStep(changes: seq<Change>, i: nat)
    requires i < |changes|
    ensures AllChecksValid(changes[..i + 1]) <==> AllChecksValid(changes[..i]) && ChecksValid(changes[i])
  {
    PrefixSnoc(changes, i);
  }

  method CheckFault(change: Change) returns (fault: Option<PlanFault>)
    ensures fault.None? <==> ChecksValid(change)
    ensures fault.Some? ==> fault.value == if Distinct(CheckIds(change.checks)) then MissingRequiredCheck else DuplicateCheck
  {
    var fast := exists c :: c in change.checks && c.required && c.tier == Fast;
    var slow := exists c :: c in change.checks && c.required && c.tier == Slow;
    var distinct := AllDistinct(CheckIds(change.checks));
    fault := if !distinct then Some(DuplicateCheck) else if !fast || !slow then Some(MissingRequiredCheck) else None;
  }

  lemma IdsStep(changes: seq<Change>, i: nat)
    requires i < |changes|
    ensures ChangeIds(changes[..i + 1]) == ChangeIds(changes[..i]) + [changes[i].id]
    ensures Distinct(ChangeIds(changes)) ==> Distinct(ChangeIds(changes[..i]) + [changes[i].id])
  {
    DistinctPrefix(ChangeIds(changes[..i]) + [changes[i].id], ChangeIds(changes));
  }

  lemma NativesStep(changes: seq<Change>, i: nat)
    requires i < |changes|
    ensures ExistingIds(FlatAtoms(changes[..i + 1])) ==
            ExistingIds(FlatAtoms(changes[..i])) + ExistingIds(changes[i].atoms)
    ensures Distinct(ExistingIds(FlatAtoms(changes))) ==>
              Distinct(ExistingIds(FlatAtoms(changes[..i])) + ExistingIds(changes[i].atoms))
  {
    assert changes[..i + 1][..i] == changes[..i];
    ExistingIdsAppend(FlatAtoms(changes[..i]), changes[i].atoms);
    NativePrefix(changes, i + 1);
  }

  lemma {:induction false} FlatAtomsPrefix(changes: seq<Change>, i: nat)
    requires i <= |changes|
    ensures FlatAtoms(changes[..i]) <= FlatAtoms(changes)
  {
    if i == |changes| {
      assert changes[..i] == changes;
    } else {
      FlatAtomsPrefix(changes[..|changes| - 1], i);
      assert changes[..|changes| - 1][..i] == changes[..i];
    }
  }

  lemma NativePrefix(changes: seq<Change>, n: nat)
    requires n <= |changes|
    ensures Distinct(ExistingIds(FlatAtoms(changes))) ==> Distinct(ExistingIds(FlatAtoms(changes[..n])))
  {
    var all, pre := FlatAtoms(changes), FlatAtoms(changes[..n]);
    FlatAtomsPrefix(changes, n);
    assert all == pre + all[|pre|..];
    ExistingIdsAppend(pre, all[|pre|..]);
    DistinctPrefix(ExistingIds(pre), ExistingIds(all));
  }
}
