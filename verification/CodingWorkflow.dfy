/** The policy leaves of flows/coding/workflow.ts: receipt findings, the fast gate and the final assessment. */
module CodingWorkflow {
  import opened Wrappers
  import opened CodingSchema

  /** Position of the first Change with this ID, or the number of Changes when there is none. */
  function OwnerIndex(changes: seq<Change>, id: string): (i: nat)
    ensures i <= |changes|
    ensures i < |changes| ==> changes[i].id == id
    ensures forall j :: 0 <= j < i ==> changes[j].id != id
  {
    if changes == [] || changes[0].id == id then 0 else 1 + OwnerIndex(changes[1..], id)
  }

  /** A finding may blame its own Change or an earlier one, and must cite the checked commit. */
  predicate Attributed(plan: Plan, index: nat, implementation: Implementation, receipt: Receipt) {
    forall f :: f in receipt.findings ==>
      && OwnerIndex(plan.changes, f.owner) < |plan.changes|
      && OwnerIndex(plan.changes, f.owner) <= index
      && f.sourceCommitId == implementation.head.commitId
  }

  function ReceiptFindings(
    plan: Plan, index: nat, implementation: Implementation, check: Check, receipt: Receipt
  ): (r: Outcome<seq<Finding>>)
    ensures r.Ok? <==>
      && index < |plan.changes| && plan.changes[index].id == implementation.change
      && check in plan.changes[index].checks
      && ReceiptMatches(implementation, check, receipt)
      && Attributed(plan, index, implementation, receipt)
    ensures r.Ok? && check.required && receipt.status != Passed ==> r.value != []
    ensures r.Ok? && receipt.findings != [] ==> r.value == receipt.findings
    ensures r.Ok? && r.value == [] ==> receipt.findings == [] && (check.required ==> receipt.status == Passed)
  {
    if index >= |plan.changes| || plan.changes[index].id != implementation.change
       || check !in plan.changes[index].checks || !ReceiptMatches(implementation, check, receipt) then
      Refused(InvalidReceipt(NotExact))
    else if !Attributed(plan, index, implementation, receipt) then
      Refused(InvalidReceipt(Misattributed))
    else if check.required && receipt.status != Passed && receipt.findings == [] then
      Ok([Finding(plan.changes[index].id, check.target + ": " + StatusText(receipt.status), implementation.head.commitId)])
    else
      Ok(receipt.findings)
  }

  function StatusText(status: Status): string {
    match status
    case Passed => "passed"
    case Failed => "failed"
    case Superseded => "superseded"
  }

  /**
   * What one receipt contributes: its own findings, or for a required check that did not pass and lists none, one
   * finding that blames the checked Change at its head.
   */
  ghost predicate Reports(
    plan: Plan, i: nat, implementation: Implementation, check: Check, receipt: Receipt, part: seq<Finding>)
  {
    && i < |plan.changes|
    && if check.required && receipt.status != Passed && receipt.findings == [] then
         && |part| == 1 && part[0].owner == plan.changes[i].id
         && part[0].sourceCommitId == implementation.head.commitId
         && part[0].message == check.target + ": " + StatusText(receipt.status)
       else part == receipt.findings
  }

  lemma FindingsReported(plan: Plan, i: nat, implementation: Implementation, check: Check, receipt: Receipt)
    requires ReceiptFindings(plan, i, implementation, check, receipt).Ok?
    ensures Reports(plan, i, implementation, check, receipt, ReceiptFindings(plan, i, implementation, check, receipt).value)
  {
  }

  /** Blaming the own Change or an earlier one, said without searching for the owner. */
  lemma AttributedExactly(plan: Plan, index: nat, implementation: Implementation, receipt: Receipt)
    ensures Attributed(plan, index, implementation, receipt) <==>
      forall f :: f in receipt.findings ==>
        && f.sourceCommitId == implementation.head.commitId
        && exists j :: 0 <= j < |plan.changes| && j <= index && plan.changes[j].id == f.owner
  {
    forall f | f in receipt.findings
      ensures (OwnerIndex(plan.changes, f.owner) < |plan.changes| && OwnerIndex(plan.changes, f.owner) <= index) <==>
              exists j :: 0 <= j < |plan.changes| && j <= index && plan.changes[j].id == f.owner
    {
      var i := OwnerIndex(plan.changes, f.owner);
      assert i < |plan.changes| ==> plan.changes[i].id == f.owner;
    }
  }

  function OfTier(checks: seq<Check>, tier: Tier): (r: seq<Check>) {
    if checks == [] then []
    else
      var rest := OfTier(checks[..|checks| - 1], tier);
      var c := checks[|checks| - 1];
      if c.tier == tier then rest + [c] else rest
  }

  lemma {:induction false} InTier(checks: seq<Check>, tier: Tier, c: Check)
    ensures c in OfTier(checks, tier) <==> c in checks && c.tier == tier
  {
    if checks != [] {
      InTier(checks[..|checks| - 1], tier, c);
      assert checks == checks[..|checks| - 1] + [checks[|checks| - 1]];
    }
  }

  lemma TierSnoc(checks: seq<Check>, c: Check, tier: Tier)
    ensures OfTier(checks + [c], tier) == OfTier(checks, tier) + (if c.tier == tier then [c] else [])
  {
    assert (checks + [c])[..|checks|] == checks;
  }

  /** Filtering keeps order and repetitions: it distributes over concatenation. */
  lemma {:induction false} TierDistributes(a: seq<Check>, b: seq<Check>, tier: Tier)
    ensures OfTier(a + b, tier) == OfTier(a, tier) + OfTier(b, tier)
  {
    if b == [] {
      assert a + b == a;
    } else {
      var n := |b| - 1;
      assert a + b == (a + b[..n]) + [b[n]] && b == b[..n] + [b[n]];
      TierDistributes(a, b[..n], tier);
      TierSnoc(a + b[..n], b[n], tier);
      TierSnoc(b[..n], b[n], tier);
    }
  }

  // ---- the fast gate -------------------------------------------------------------------------

  /** A record of receipts in key order: `Object.fromEntries` over pairs. */
  type ReceiptRecord = seq<(string, Receipt)>

  function Lookup(receipts: ReceiptRecord, id: string): (r: Option<Receipt>)
    ensures r.Some? ==> (id, r.value) in receipts
    ensures r.None? ==> forall x :: x in receipts ==> x.0 != id
  {
    if receipts == [] then None
    else if receipts[|receipts| - 1].0 == id then Some(receipts[|receipts| - 1].1)
    else Lookup(receipts[..|receipts| - 1], id)
  }

  function Values(receipts: ReceiptRecord): (values: seq<Receipt>)
    ensures |values| == |receipts| && forall i :: 0 <= i < |values| ==> values[i] == receipts[i].1
  {
    seq(|receipts|, i requires 0 <= i < |receipts| => receipts[i].1)
  }

  /** The record `stages` and `repairChecks` hand to the gate: one entry per fast check, in plan order. */
  function FastRecord(checks: seq<Check>, receipts: seq<Receipt>): (r: ReceiptRecord)
    requires |checks| == |receipts|
    ensures |r| == |checks| && forall i :: 0 <= i < |r| ==> r[i] == (checks[i].id, receipts[i])
  {
    seq(|checks|, i requires 0 <= i < |checks| => (checks[i].id, receipts[i]))
  }

  function AtomIds(atoms: seq<Revision>): (ids: seq<string>)
    ensures |ids| == |atoms| && forall i :: 0 <= i < |ids| ==> ids[i] == atoms[i].changeId
  {
    seq(|atoms|, i requires 0 <= i < |atoms| => atoms[i].changeId)
  }

  /** The revision part of the gate: the planned atoms as one linear, identity-preserving progression. */
  ghost predicate Implements(change: Change, parent: Revision, implementation: Implementation) {
    && implementation.change == change.id
    && |implementation.atoms| == |change.atoms| > 0
    && implementation.head == implementation.atoms[|implementation.atoms| - 1]
    && implementation.parent == parent
    && Chained(parent, implementation.atoms)
    && Distinct([parent.changeId] + AtomIds(implementation.atoms))
    && Keeps(change.atoms, implementation.atoms)
  }

  /** Every atom planned over an existing native change kept that change's identity. */
  ghost predicate Keeps(planned: seq<AtomicPlan>, atoms: seq<Revision>) {
    forall k :: 0 <= k < |planned| && k < |atoms| && planned[k].changeId.Some? ==>
      atoms[k].changeId == planned[k].changeId.value
  }

  predicate FastReceiptOk(implementation: Implementation, check: Check, receipt: Option<Receipt>) {
    && receipt.Some? && ReceiptMatches(implementation, check, receipt.value)
    && (check.required ==> receipt.value.status == Passed)
  }

  ghost predicate GateAccepts(change: Change, parent: Revision, implementation: Implementation, receipts: ReceiptRecord) {
    && Implements(change, parent, implementation)
    && forall c :: c in change.checks && c.tier == Fast ==> FastReceiptOk(implementation, c, Lookup(receipts, c.id))
  }

  /** A fast check without an exact receipt, or with one although it is required and did not pass. */
  ghost predicate FastFault(change: Change, implementation: Implementation, receipts: ReceiptRecord, c: Check, exact: bool) {
    && c in change.checks && c.tier == Fast
    && var receipt := Lookup(receipts, c.id);
       && (exact <==> receipt.Some? && ReceiptMatches(implementation, c, receipt.value))
       && (exact ==> c.required && receipt.value.status != Passed)
  }

  /** The gate's loops accept exactly a linear implementation with every fast check exact and every required one passed. */
  method FastGate(change: Change, parent: Revision, implementation: Implementation, receipts: ReceiptRecord)
    returns (r: Outcome<ValidatedChange>)
    requires |implementation.atoms| > 0 && |change.atoms| > 0  // non-empty by schema
    ensures r.Ok? <==> GateAccepts(change, parent, implementation, receipts)
    ensures r.Ok? ==> r.value == ValidatedChange(implementation, Values(receipts))
    ensures r == Refused(StaleRevision) <==> !Implements(change, parent, implementation)
    ensures r == Refused(InvalidReceipt(NotExact)) ==> exists c :: FastFault(change, implementation, receipts, c, false)
    ensures r == Refused(FastGateFailed) ==> exists c :: FastFault(change, implementation, receipts, c, true)
    ensures r.Refused? ==> r.error in {StaleRevision, InvalidReceipt(NotExact), FastGateFailed}
  {
    if implementation.change != change.id || |implementation.atoms| != |change.atoms|
       || !SameRevision(implementation.atoms[|implementation.atoms| - 1], implementation.head)
       || !SameRevision(implementation.parent, parent) {
      return Refused(StaleRevision);
    }
    var linear := Linear(change.atoms, parent, implementation.atoms);
    if !linear { return Refused(StaleRevision); }
    var fast := OfTier(change.checks, Fast);
    for i := 0 to |fast|
      invariant forall j :: 0 <= j < i ==> FastReceiptOk(implementation, fast[j], Lookup(receipts, fast[j].id))
    {
      var receipt := Lookup(receipts, fast[i].id);
      InTier(change.checks, Fast, fast[i]);
      if receipt.None? || !ReceiptMatches(implementation, fast[i], receipt.value) {
        assert FastFault(change, implementation, receipts, fast[i], false);
        return Refused(InvalidReceipt(NotExact));
      }
      if fast[i].required && receipt.value.status != Passed {
        assert FastFault(change, implementation, receipts, fast[i], true);
        return Refused(FastGateFailed);
      }
    }
    forall c | c in change.checks && c.tier == Fast ensures c in fast { InTier(change.checks, Fast, c); }
    r := Ok(ValidatedChange(implementation, Values(receipts)));
  }

  /** The walk that threads `previous`, and the set of identities seen so far. */
  method Linear(planned: seq<AtomicPlan>, parent: Revision, atoms: seq<Revision>) returns (ok: bool)
    requires |planned| == |atoms|
    ensures ok <==> Chained(parent, atoms) && Distinct([parent.changeId] + AtomIds(atoms)) && Keeps(planned, atoms)
  {
    var identities := Claim([parent.changeId], AtomIds(atoms));
    if identities.None? { return false; }
    var previous := parent;
    for k := 0 to |atoms|
      invariant previous == Before(parent, atoms, k)
      invariant Chained(parent, atoms[..k]) && Keeps(planned, atoms[..k])
    {
      if !OnlyParent(atoms[k], previous) { return false; }
      ChainedStep(parent, atoms, k);
      previous := atoms[k];
      if planned[k].changeId.Some? && atoms[k].changeId != planned[k].changeId.value { return false; }
    }
    assert atoms[..|atoms|] == atoms;
    ok := true;
  }

  lemma ChainedStep(parent: Revision, atoms: seq<Revision>, k: nat)
    requires k < |atoms|
    ensures Chained(parent, atoms[..k + 1]) <==>
            Chained(parent, atoms[..k]) && OnlyParent(atoms[k], Before(parent, atoms, k))
    ensures Chained(parent, atoms) ==> Chained(parent, atoms[..k + 1])
  {
    ChainedPrefix(parent, atoms, k + 1);
    var now, next := atoms[..k], atoms[..k + 1];
    assert next[..k] == now;
    ChainedPrefix(parent, next, k);
    assert next[k] == atoms[k] && Before(parent, next, k) == Before(parent, atoms, k);
    if Chained(parent, now) && OnlyParent(atoms[k], Before(parent, atoms, k)) {
      forall j | 0 <= j < |next| ensures OnlyParent(next[j], Before(parent, next, j)) {
        if j < k { assert next[j] == now[j] && Before(parent, next, j) == Before(parent, now, j); }
      }
    }
  }

  lemma ChainedPrefix(parent: Revision, atoms: seq<Revision>, n: nat)
    requires n <= |atoms|
    ensures Chained(parent, atoms) ==> Chained(parent, atoms[..n])
  {
    var prefix := atoms[..n];
    if Chained(parent, atoms) {
      forall j | 0 <= j < |prefix| ensures OnlyParent(prefix[j], Before(parent, prefix, j)) {
        assert prefix[j] == atoms[j] && Before(parent, prefix, j) == Before(parent, atoms, j);
      }
    }
  }

  /** What a gate yields over the record of its own fast checks: an accepted implementation and their exact receipts. */
  ghost predicate Gated(change: Change, parent: Revision, group: ValidatedChange) {
    var fast := OfTier(change.checks, Fast);
    && |group.receipts| == |fast|
    && GateAccepts(change, parent, group.implementation, FastRecord(fast, group.receipts))
  }

  /** With distinct check IDs, every receipt of a gated group exactly matches the planned fast check at its position. */
  lemma GatedReceiptsExact(change: Change, parent: Revision, group: ValidatedChange, k: nat)
    requires Gated(change, parent, group) && Distinct(CheckIds(change.checks))
    requires k < |group.receipts|
    ensures OfTier(change.checks, Fast)[k] in change.checks
    ensures ReceiptMatches(group.implementation, OfTier(change.checks, Fast)[k], group.receipts[k])
  {
    var fast := OfTier(change.checks, Fast);
    InTier(change.checks, Fast, fast[k]);
    TierDistinct(change.checks, Fast);
    LookupOwn(fast, group.receipts, k);
  }

  lemma {:induction false} TierDistinct(checks: seq<Check>, tier: Tier)
    requires Distinct(CheckIds(checks))
    ensures Distinct(CheckIds(OfTier(checks, tier)))
  {
    if checks != [] {
      var init, c := checks[..|checks| - 1], checks[|checks| - 1];
      assert CheckIds(checks) == CheckIds(init) + [c.id];
      Admit(CheckIds(init), c.id);
      TierDistinct(init, tier);
      TierFresh(init, tier, c);
    }
  }

  lemma TierFresh(checks: seq<Check>, tier: Tier, c: Check)
    requires c.id !in CheckIds(checks) && Distinct(CheckIds(OfTier(checks, tier)))
    ensures Distinct(CheckIds(OfTier(checks, tier) + [c]))
  {
    var rest := OfTier(checks, tier);
    assert CheckIds(rest + [c]) == CheckIds(rest) + [c.id];
    Admit(CheckIds(rest), c.id);
    forall i | 0 <= i < |rest| ensures rest[i].id != c.id {
      InTier(checks, tier, rest[i]);
      var j :| 0 <= j < |checks| && checks[j] == rest[i];
      assert CheckIds(checks)[j] == rest[i].id;
    }
  }

  lemma {:induction false} LookupOwn(checks: seq<Check>, receipts: seq<Receipt>, k: nat)
    requires |checks| == |receipts| && k < |checks| && Distinct(CheckIds(checks))
    ensures Lookup(FastRecord(checks, receipts), checks[k].id) == Some(receipts[k])
  {
    var n := |checks| - 1;
    var r := FastRecord(checks, receipts);
    if k < n {
      DistinctAt(CheckIds(checks), k, n);
      assert r[..n] == FastRecord(checks[..n], receipts[..n]);
      assert CheckIds(checks[..n]) == CheckIds(checks)[..n];
      DistinctPrefix(CheckIds(checks[..n]), CheckIds(checks));
      LookupOwn(checks[..n], receipts[..n], k);
    }
  }

  // ---- the final assessment ------------------------------------------------------------------

  /** The first receipt that names the check. */
  ghost predicate FirstNamed(receipts: seq<Receipt>, id: string, j: nat) {
    j < |receipts| && receipts[j].checkId == id && forall k :: 0 <= k < j ==> receipts[k].checkId != id
  }

  function FindReceipt(receipts: seq<Receipt>, id: string): (r: Option<Receipt>)
    ensures r.Some? ==> r.value in receipts && r.value.checkId == id
    ensures r.None? ==> forall x :: x in receipts ==> x.checkId != id
  {
    if receipts == [] then None
    else if receipts[0].checkId == id then Some(receipts[0])
    else FindReceipt(receipts[1..], id)
  }

  lemma {:induction false} FindsFirst(receipts: seq<Receipt>, id: string) returns (j: nat)
    requires FindReceipt(receipts, id).Some?
    ensures FirstNamed(receipts, id, j) && FindReceipt(receipts, id) == Some(receipts[j])
  {
    if receipts[0].checkId == id {
      j := 0;
    } else {
      var k := FindsFirst(receipts[1..], id);
      j := k + 1;
      assert forall i :: 1 <= i < j ==> receipts[i] == receipts[1..][i - 1];
    }
  }

  /** The findings of one check against the first receipt that names it. */
  function CheckFindings(plan: Plan, index: nat, group: ValidatedChange, check: Check): (r: Outcome<seq<Finding>>)
  {
    var receipt := FindReceipt(group.receipts, check.id);
    if receipt.None? then Refused(InvalidReceipt(NotExact))
    else ReceiptFindings(plan, index, group.implementation, check, receipt.value)
  }

  /** Every non-delivery check of the group has an exact receipt without an actionable finding. */
  ghost predicate Clean(plan: Plan, index: nat, group: ValidatedChange)
    requires index < |plan.changes|
  {
    forall c :: c in plan.changes[index].checks && c.tier != Delivery ==>
      CheckFindings(plan, index, group, c) == Ok([])
  }

  function FlatIds(changes: seq<ValidatedChange>): seq<string> {
    if changes == [] then []
    else FlatIds(changes[..|changes| - 1]) + AtomIds(changes[|changes| - 1].implementation.atoms)
  }

  /** Why a validated assessment is trustworthy: all groups are clean and every native change has one owner. */
  ghost predicate Trustworthy(plan: Plan, changes: seq<ValidatedChange>) {
    && |changes| == |plan.changes|
    && Distinct([plan.base.changeId] + FlatIds(changes))
    && forall i :: 0 <= i < |changes| ==> changes[i].implementation.change == plan.changes[i].id && Clean(plan, i, changes[i])
  }

  // ---- what an assessment tells ----------------------------------------------------------------

  /** What the first receipt naming check `k` contributes; delivery checks contribute nothing. */
  ghost predicate CheckTells(plan: Plan, i: nat, group: ValidatedChange, k: nat, part: seq<Finding>) {
    && i < |plan.changes| && k < |plan.changes[i].checks|
    && var c := plan.changes[i].checks[k];
       if c.tier == Delivery then part == []
       else
         exists j: nat ::
           FirstNamed(group.receipts, c.id, j) && Reports(plan, i, group.implementation, c, group.receipts[j], part)
  }

  ghost function CheckParts(plan: Plan, i: nat, group: ValidatedChange): (nat, seq<Finding>) -> bool {
    (k: nat, part: seq<Finding>) => CheckTells(plan, i, group, k, part)
  }

  /** The group's findings: one part per planned check, in plan order. */
  ghost predicate GroupTells(plan: Plan, i: nat, group: ValidatedChange, findings: seq<Finding>) {
    i < |plan.changes| && Composed(CheckParts(plan, i, group), |plan.changes[i].checks|, findings)
  }

  ghost function GroupParts(plan: Plan, changes: seq<ValidatedChange>): (nat, seq<Finding>) -> bool {
    (i: nat, part: seq<Finding>) => i < |changes| && GroupTells(plan, i, changes[i], part)
  }

  /** All findings of an assessment: Change by Change in plan order, each check by check. */
  ghost predicate Tells(plan: Plan, changes: seq<ValidatedChange>, findings: seq<Finding>) {
    Composed(GroupParts(plan, changes), |changes|, findings)
  }

  /** Every non-delivery check of the group has a first receipt that is exact and attributed. */
  ghost predicate Judgeable(plan: Plan, i: nat, group: ValidatedChange) {
    && i < |plan.changes|
    && forall c :: c in plan.changes[i].checks && c.tier != Delivery ==> CheckFindings(plan, i, group, c).Ok?
  }

  /** The groups are the planned Changes in order, no native change has two owners, and all evidence can be judged. */
  ghost predicate Assessable(plan: Plan, changes: seq<ValidatedChange>) {
    && |changes| == |plan.changes| && Distinct([plan.base.changeId] + FlatIds(changes))
    && forall i :: 0 <= i < |changes| ==> AssessableAt(plan, changes, i)
  }

  ghost predicate AssessableAt(plan: Plan, changes: seq<ValidatedChange>, i: nat) {
    i < |changes| == |plan.changes| && changes[i].implementation.change == plan.changes[i].id && Judgeable(plan, i, changes[i])
  }

  ghost predicate AssessableUpTo(plan: Plan, changes: seq<ValidatedChange>, n: nat) {
    forall j: nat :: j < n ==> AssessableAt(plan, changes, j)
  }

  ghost predicate CleanUpTo(plan: Plan, changes: seq<ValidatedChange>, n: nat)
    requires n <= |changes| == |plan.changes|
  {
    forall j :: 0 <= j < n ==> Clean(plan, j, changes[j])
  }

  /** What the loop has established about the first `n` groups. */
  ghost predicate AssessedSoFar(plan: Plan, changes: seq<ValidatedChange>, n: nat, identities: seq<string>, findings: seq<Finding>) {
    && n <= |changes| == |plan.changes|
    && identities == [plan.base.changeId] + FlatIds(changes[..n]) && Distinct(identities)
    && AssessableUpTo(plan, changes, n)
    && (findings == [] <==> CleanUpTo(plan, changes, n))
    && Composed(GroupParts(plan, changes), n, findings)
  }

  /**
   * Assessment accepts exactly the assessable groups, returns them unchanged with exactly the findings their receipts
   * tell, and calls them validated exactly when they are trustworthy.
   */
  method Assess(plan: Plan, changes: seq<ValidatedChange>) returns (r: Outcome<Result>)
    ensures r.Ok? <==> Assessable(plan, changes)
    ensures r.Ok? ==> r.value.changes == changes && Tells(plan, changes, r.value.findings)
    ensures r.Ok? ==> (r.value.status == Validated <==> r.value.findings == [])
    ensures r.Ok? && r.value.status == Validated <==> Trustworthy(plan, changes)
    ensures r == Refused(InvalidReceipt(MissingChanges)) <==> |changes| != |plan.changes|
  {
    var findings, identities := [], [plan.base.changeId];
    if |changes| != |plan.changes| { return Refused(InvalidReceipt(MissingChanges)); }
    NothingAssessed(plan, changes);
    for i := 0 to |changes|
      invariant AssessedSoFar(plan, changes, i, identities, findings)
    {
      var result := changes[i];
      if result.implementation.change != plan.changes[i].id {
        Unassessable(plan, changes, i);
        return Refused(InvalidReceipt(Reordered));
      }
      FlatIdsStep(plan.base.changeId, changes, i);
      var owned := Claim(identities, AtomIds(result.implementation.atoms));
      if owned.None? { return Refused(StaleRevision); }
      var more := GroupFindings(plan, i, result);
      if more.Refused? {
        Unassessable(plan, changes, i);
        return Refused(more.error);
      }
      AssessedStep(plan, changes, i, identities, findings, owned.value, more.value);
      identities, findings := owned.value, findings + more.value;
    }
    AssessedAll(plan, changes, identities, findings);
    r := Ok(Result(if findings == [] then Validated else ChangesRequested, changes, findings));
  }

  lemma NothingAssessed(plan: Plan, changes: seq<ValidatedChange>)
    requires |changes| == |plan.changes|
    ensures AssessedSoFar(plan, changes, 0, [plan.base.changeId], [])
  {
    ComposedNone(GroupParts(plan, changes));
    assert changes[..0] == [] && [plan.base.changeId] + FlatIds([]) == [plan.base.changeId];
  }

  lemma Unassessable(plan: Plan, changes: seq<ValidatedChange>, i: nat)
    requires i < |changes| && !AssessableAt(plan, changes, i)
    ensures !Assessable(plan, changes) && !Trustworthy(plan, changes)
  {
  }

  lemma AssessedStep(
    plan: Plan, changes: seq<ValidatedChange>, i: nat, identities: seq<string>, findings: seq<Finding>,
    owned: seq<string>, more: seq<Finding>)
    requires i < |changes| && AssessedSoFar(plan, changes, i, identities, findings) && AssessableAt(plan, changes, i)
    requires owned == [plan.base.changeId] + FlatIds(changes[..i + 1]) && Distinct(owned)
    requires (more == [] <==> Clean(plan, i, changes[i])) && GroupTells(plan, i, changes[i], more)
    ensures AssessedSoFar(plan, changes, i + 1, owned, findings + more)
  {
    TellsStep(plan, changes, i, findings, more);
    CleanStep(plan, changes, i);
    assert findings + more == [] <==> findings == [] && more == [];
  }

  lemma TellsStep(plan: Plan, changes: seq<ValidatedChange>, i: nat, findings: seq<Finding>, more: seq<Finding>)
    requires i < |changes| && Composed(GroupParts(plan, changes), i, findings) && GroupTells(plan, i, changes[i], more)
    ensures Composed(GroupParts(plan, changes), i + 1, findings + more)
  {
    ComposedMore(GroupParts(plan, changes), i, findings, more);
  }

  lemma CleanStep(plan: Plan, changes: seq<ValidatedChange>, i: nat)
    requires i < |changes| == |plan.changes|
    ensures CleanUpTo(plan, changes, i + 1) <==> CleanUpTo(plan, changes, i) && Clean(plan, i, changes[i])
  {
  }

  lemma AssessedAll(plan: Plan, changes: seq<ValidatedChange>, identities: seq<string>, findings: seq<Finding>)
    requires AssessedSoFar(plan, changes, |changes|, identities, findings)
    ensures Assessable(plan, changes) && Tells(plan, changes, findings)
    ensures findings == [] <==> Trustworthy(plan, changes)
  {
    assert changes[..|changes|] == changes;
    forall i | 0 <= i < |changes| ensures changes[i].implementation.change == plan.changes[i].id {
      assert AssessableAt(plan, changes, i);
    }
  }

  lemma FlatIdsStep(base: string, changes: seq<ValidatedChange>, i: nat)
    requires i < |changes|
    ensures [base] + FlatIds(changes[..i + 1]) == [base] + FlatIds(changes[..i]) + AtomIds(changes[i].implementation.atoms)
    ensures Distinct([base] + FlatIds(changes)) ==>
              Distinct([base] + FlatIds(changes[..i]) + AtomIds(changes[i].implementation.atoms))
  {
    assert changes[..i + 1][..i] == changes[..i];
    FlatIdsPrefix(changes, i + 1);
    DistinctPrefix([base] + FlatIds(changes[..i + 1]), [base] + FlatIds(changes));
  }

  lemma {:induction false} FlatIdsPrefix(changes: seq<ValidatedChange>, n: nat)
    requires n <= |changes|
    ensures FlatIds(changes[..n]) <= FlatIds(changes)
    decreases |changes|
  {
    if n == |changes| {
      assert changes[..n] == changes;
    } else {
      FlatIdsPrefix(changes[..|changes| - 1], n);
      assert changes[..|changes| - 1][..n] == changes[..n];
    }
  }

  method GroupFindings(plan: Plan, index: nat, group: ValidatedChange) returns (r: Outcome<seq<Finding>>)
    requires index < |plan.changes|
    ensures r.Ok? <==> Judgeable(plan, index, group)
    ensures r.Refused? ==> r.error in {InvalidReceipt(NotExact), InvalidReceipt(Misattributed)}
    ensures r.Ok? ==> (r.value == [] <==> Clean(plan, index, group)) && GroupTells(plan, index, group, r.value)
  {
    var findings, checks := [], plan.changes[index].checks;
    ComposedNone(CheckParts(plan, index, group));
    for k := 0 to |checks|
      invariant JudgedSoFar(plan, index, group, checks[..k], findings == [])
      invariant Composed(CheckParts(plan, index, group), k, findings)
    {
      var more := Ok([]);
      if checks[k].tier != Delivery {
        more := CheckFindings(plan, index, group, checks[k]);
        assert checks[k] in checks;
        if more.Refused? { return more; }
        CheckIsTold(plan, index, group, k);
      }
      JudgedStep(plan, index, group, k, findings == [], more.value == []);
      ComposedMore(CheckParts(plan, index, group), k, findings, more.value);
      findings := findings + more.value;
    }
    assert checks[..|checks|] == checks;
    r := Ok(findings);
  }

  /** All these checks can be judged, and `clean` says whether none of them has findings. */
  ghost predicate JudgedSoFar(plan: Plan, index: nat, group: ValidatedChange, checks: seq<Check>, clean: bool) {
    && (forall c :: c in checks && c.tier != Delivery ==> CheckFindings(plan, index, group, c).Ok?)
    && (clean <==> forall c :: c in checks && c.tier != Delivery ==> CheckFindings(plan, index, group, c) == Ok([]))
  }

  lemma JudgedStep(plan: Plan, index: nat, group: ValidatedChange, k: nat, clean: bool, empty: bool)
    requires index < |plan.changes| && k < |plan.changes[index].checks|
    requires JudgedSoFar(plan, index, group, plan.changes[index].checks[..k], clean)
    requires var c := plan.changes[index].checks[k];
      if c.tier == Delivery then empty
      else var more := CheckFindings(plan, index, group, c); more.Ok? && (empty <==> more.value == [])
    ensures JudgedSoFar(plan, index, group, plan.changes[index].checks[..k + 1], clean && empty)
  {
    PrefixSnoc(plan.changes[index].checks, k);
  }

  lemma CheckIsTold(plan: Plan, i: nat, group: ValidatedChange, k: nat)
    requires i < |plan.changes| && k < |plan.changes[i].checks| && plan.changes[i].checks[k].tier != Delivery
    requires CheckFindings(plan, i, group, plan.changes[i].checks[k]).Ok?
    ensures CheckTells(plan, i, group, k, CheckFindings(plan, i, group, plan.changes[i].checks[k]).value)
  {
    var c := plan.changes[i].checks[k];
    var j := FindsFirst(group.receipts, c.id);
    FindingsReported(plan, i, group.implementation, c, group.receipts[j]);
  }
}
