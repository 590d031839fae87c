/** flows/coding/correction.ts: preparing one owner repair and rebuilding the restacked history and its evidence. */
module CodingCorrection {
  import opened Wrappers
  import opened CodingSchema
  import opened CodingWorkflow
  import opened CodingAtoms

  datatype Context = Context(owner: Change, implementation: Implementation, findings: seq<Finding>, index: nat)
  datatype Repair = Repair(change: Change, parent: Revision, memoryRevision: string, index: nat, ordinal: nat)
  datatype Selection = Selection(changeId: string, intent: string)
  datatype Input = Input(plan: Plan, previous: Result, repair: Repair, edited: Implementation, read: ReadResult)

  // ---- resolving native changes ----------------------------------------------------------------

  function Named(revisions: seq<NativeRevision>, id: string): (r: seq<NativeRevision>)
    ensures forall n :: n in r <==> n in revisions && n.Id() == id
  {
    if revisions == [] then []
    else if revisions[0].Id() == id then [revisions[0]] + Named(revisions[1..], id)
    else Named(revisions[1..], id)
  }

  /** A change is usable only when the read lists it exactly once and without a conflict; see `ResolveExactly`. */
  function Resolve(read: ReadResult, id: string): (r: Option<Revision>)
    ensures r.Some? ==> r.value.changeId == id
  {
    var values := Named(read.revisions, id);
    assert |values| == 1 ==> values[0] in values;
    if |values| != 1 || values[0].Conflicted? then None else Some(values[0].revision)
  }

  ghost predicate OnlyAt(revisions: seq<NativeRevision>, id: string, i: nat) {
    i < |revisions| && revisions[i].Id() == id && forall j :: 0 <= j < |revisions| && j != i ==> revisions[j].Id() != id
  }

  lemma NamedNone(revisions: seq<NativeRevision>, id: string)
    requires forall j :: 0 <= j < |revisions| ==> revisions[j].Id() != id
    ensures Named(revisions, id) == []
  {
  }

  lemma {:induction false} NamedAt(revisions: seq<NativeRevision>, id: string, i: nat)
    requires OnlyAt(revisions, id, i)
    ensures Named(revisions, id) == [revisions[i]]
  {
    var tail := revisions[1..];
    if i == 0 {
      NamedNone(tail, id);
    } else {
      assert forall j :: 0 <= j < |tail| ==> tail[j] == revisions[j + 1];
      NamedAt(tail, id, i - 1);
    }
  }

  lemma {:induction false} NamedOnce(revisions: seq<NativeRevision>, id: string) returns (i: nat)
    requires |Named(revisions, id)| == 1
    ensures OnlyAt(revisions, id, i)
  {
    var tail := revisions[1..];
    assert forall j :: 1 <= j < |revisions| ==> revisions[j] == tail[j - 1] && revisions[j] in tail;
    if revisions[0].Id() == id {
      assert Named(tail, id) == [];
      i := 0;
    } else {
      i := NamedOnce(tail, id);
      i := i + 1;
    }
  }

  /** Resolution succeeds exactly when one entry, and only one, names the change and it is not conflicted. */
  lemma ResolveExactly(read: ReadResult, id: string, r: Revision)
    ensures Resolve(read, id) == Some(r) <==> exists i: nat :: OnlyAt(read.revisions, id, i) && read.revisions[i] == Resolved(r)
  {
    if Resolve(read, id) == Some(r) {
      var i := NamedOnce(read.revisions, id);
      NamedAt(read.revisions, id, i);
    }
    forall i: nat | OnlyAt(read.revisions, id, i) && read.revisions[i] == Resolved(r) ensures Resolve(read, id) == Some(r) {
      NamedAt(read.revisions, id, i);
    }
  }

  /** The known revision where its code is unchanged, otherwise the freshly read one (when there is one). */
  function Current(read: ReadResult, known: Revision): (r: Revision)
    ensures r.changeId == known.changeId
    ensures Resolve(read, known.changeId).Some? ==> SameCode(r, Resolve(read, known.changeId).value)
    ensures Unchanged(read, known) ==> r == known
    ensures Resolve(read, known.changeId).Some? && !Unchanged(read, known) ==> r == Resolve(read, known.changeId).value
  {
    var current := Resolve(read, known.changeId);
    if current.None? || SameCode(current.value, known) then known else current.value
  }

  predicate Unchanged(read: ReadResult, known: Revision) {
    var current := Resolve(read, known.changeId);
    current.Some? && SameCode(current.value, known)
  }

  function Refreshed(read: ReadResult, atoms: seq<Revision>): (r: seq<Revision>)
    ensures |r| == |atoms| && forall k :: 0 <= k < |r| ==> r[k] == Current(read, atoms[k])
  {
    seq(|atoms|, k requires 0 <= k < |atoms| => Current(read, atoms[k]))
  }

  // ---- well-formed progressions ------------------------------------------------------------------

  /** The revision a group starts from: the base, or the head of the group before it. */
  function Foot(base: Revision, changes: seq<ValidatedChange>, i: nat): Revision
    requires i <= |changes|
  {
    if i == 0 then base else changes[i - 1].implementation.head
  }

  ghost predicate GroupLinear(parent: Revision, implementation: Implementation) {
    && |implementation.atoms| > 0
    && implementation.head == implementation.atoms[|implementation.atoms| - 1]
    && implementation.parent == parent
    && Chained(parent, implementation.atoms)
  }

  /** One linear history from base to tip: every group starts at the head below it and ends at its own last atom. */
  ghost predicate Progression(base: Revision, changes: seq<ValidatedChange>) {
    forall i {:trigger Foot(base, changes, i)} :: 0 <= i < |changes| ==>
      GroupLinear(Foot(base, changes, i), changes[i].implementation)
  }

  // ---- preparing a repair ------------------------------------------------------------------------

  function FindAtom(atoms: seq<Revision>, id: string): (k: nat)
    ensures k <= |atoms|
    ensures k < |atoms| ==> atoms[k].changeId == id
    ensures forall j :: 0 <= j < k ==> atoms[j].changeId != id
  {
    if atoms == [] || atoms[0].changeId == id then 0 else 1 + FindAtom(atoms[1..], id)
  }

  /** The earliest owning Change among the findings; `|changes|` stands for the source's -1. */
  function EarliestOwner(changes: seq<Change>, findings: seq<Finding>): (i: nat)
    requires findings != []
    ensures exists f :: f in findings && i == OwnerIndex(changes, f.owner)
    ensures i < |changes| ==> forall f :: f in findings ==> i <= OwnerIndex(changes, f.owner) < |changes|
  {
    var first := OwnerIndex(changes, findings[0].owner);
    assert findings[0] in findings;
    if |findings| == 1 then first
    else
      var rest := EarliestOwner(changes, findings[1..]);
      // Math.min over indexes where an unknown owner counts as -1
      if first == |changes| || (rest < |changes| && first <= rest) then first else rest
  }

  function PrepareContext(plan: Plan, previous: Result, read: ReadResult): (r: Outcome<Context>)
    ensures r.Ok? ==>
      && |previous.changes| == |plan.changes| && r.value.index < |plan.changes|
      && r.value.owner == plan.changes[r.value.index]
      && r.value.implementation == previous.changes[r.value.index].implementation
      && previous.status == ChangesRequested
      && (forall f :: f in previous.findings ==> r.value.index <= OwnerIndex(plan.changes, f.owner))
  {
    if previous.status != ChangesRequested || previous.findings == [] || |previous.changes| != |plan.changes|
    then Refused(StaleRevision)
    else
      var index := EarliestOwner(plan.changes, previous.findings);
      if index == |plan.changes| then Refused(StaleRevision)
      else if !Unchanged(read, plan.base) then Refused(StaleRevision)
      else if exists i, k :: 0 <= i < |previous.changes| && 0 <= k < |previous.changes[i].implementation.atoms|
                     && !Unchanged(read, previous.changes[i].implementation.atoms[k]) then
        Refused(StaleRevision)
      else
        var implementation := previous.changes[index].implementation;
        Ok(Context(plan.changes[index], implementation, OwnedBy(previous.findings, implementation.change), index))
  }

  function OwnedBy(findings: seq<Finding>, owner: string): (r: seq<Finding>)
    ensures forall f :: f in r <==> f in findings && f.owner == owner
  {
    if findings == [] then []
    else if findings[0].owner == owner then [findings[0]] + OwnedBy(findings[1..], owner)
    else OwnedBy(findings[1..], owner)
  }

  lemma OwnedByCons(f: Finding, findings: seq<Finding>, owner: string)
    ensures OwnedBy([f] + findings, owner) == (if f.owner == owner then [f] else []) + OwnedBy(findings, owner)
  {
    assert ([f] + findings)[1..] == findings;
  }

  /** Selecting an owner's findings keeps order and repetitions. */
  lemma {:induction false} OwnedByDistributes(a: seq<Finding>, b: seq<Finding>, owner: string)
    ensures OwnedBy(a + b, owner) == OwnedBy(a, owner) + OwnedBy(b, owner)
  {
    if a == [] {
      assert a + b == b;
    } else {
      assert a + b == [a[0]] + (a[1..] + b) && a == [a[0]] + a[1..];
      OwnedByDistributes(a[1..], b, owner);
      OwnedByCons(a[0], a[1..] + b, owner);
      OwnedByCons(a[0], a[1..], owner);
    }
  }

  ghost predicate AllUnchanged(read: ReadResult, changes: seq<ValidatedChange>) {
    forall i, k :: 0 <= i < |changes| && 0 <= k < |changes[i].implementation.atoms| ==>
      Unchanged(read, changes[i].implementation.atoms[k])
  }

  ghost predicate Known(changes: seq<Change>, owner: string) {
    exists j :: 0 <= j < |changes| && changes[j].id == owner
  }

  /**
   * A repair has a context exactly when the result asks for changes with findings whose owners are all planned and
   * nothing known has moved; it is about the first Change that any finding blames, with exactly that Change's findings.
   */
  lemma ContextExactly(plan: Plan, previous: Result, read: ReadResult)
    ensures PrepareContext(plan, previous, read).Ok? <==>
      && previous.status == ChangesRequested && previous.findings != [] && |previous.changes| == |plan.changes|
      && (forall f :: f in previous.findings ==> Known(plan.changes, f.owner))
      && Unchanged(read, plan.base) && AllUnchanged(read, previous.changes)
    ensures PrepareContext(plan, previous, read).Ok? ==>
      var c := PrepareContext(plan, previous, read).value;
      && c.index < |plan.changes| == |previous.changes|
      && c.owner == plan.changes[c.index] && c.implementation == previous.changes[c.index].implementation
      && (exists f :: f in previous.findings && f.owner == plan.changes[c.index].id)
      && (forall f, j :: f in previous.findings && 0 <= j < c.index ==> plan.changes[j].id != f.owner)
      && c.findings == OwnedBy(previous.findings, c.implementation.change)
  {
    forall f | f in previous.findings
      ensures OwnerIndex(plan.changes, f.owner) < |plan.changes| <==> Known(plan.changes, f.owner)
    {
      var i := OwnerIndex(plan.changes, f.owner);
      assert i < |plan.changes| ==> plan.changes[i].id == f.owner;
    }
  }

  /** The first atom with the selected identity. */
  ghost predicate Selects(context: Context, selection: Selection, k: nat) {
    && k < |context.implementation.atoms| && context.implementation.atoms[k].changeId == selection.changeId
    && forall j :: 0 <= j < k ==> context.implementation.atoms[j].changeId != selection.changeId
  }

  /** A repair of exactly the selected atom: its planned work with the correction appended, on the revision below it. */
  ghost predicate RepairOf(context: Context, selection: Selection, memoryRevision: string, repair: Repair) {
    && Selects(context, selection, repair.ordinal) && repair.ordinal < |context.owner.atoms|
    && repair.index == context.index && repair.memoryRevision == memoryRevision
    && |repair.change.atoms| == 1 && repair.change == context.owner.(atoms := repair.change.atoms)
    && repair.parent == Before(context.implementation.parent, context.implementation.atoms, repair.ordinal)
    && var planned, atom := context.owner.atoms[repair.ordinal], repair.change.atoms[0];
       && atom.changeId == Some(selection.changeId) && atom.message == planned.message
       && atom.readFiles == planned.readFiles && atom.writeFiles == planned.writeFiles
       && atom.intent == planned.intent + "\n\nCorrection: " + selection.intent
  }

  /** Succeeds exactly when the selection names an atom of the implementation at a planned position. */
  function PrepareRepair(context: Context, selection: Selection, memoryRevision: string): (r: Outcome<Repair>)
    ensures r.Ok? <==> exists k: nat :: Selects(context, selection, k) && k < |context.owner.atoms|
    ensures r.Ok? ==> RepairOf(context, selection, memoryRevision, r.value)
    ensures r.Refused? ==> r.error == StaleRevision
  {
    var ordinal := FindAtom(context.implementation.atoms, selection.changeId);
    assert ordinal < |context.implementation.atoms| ==> Selects(context, selection, ordinal);
    if ordinal == |context.implementation.atoms| || ordinal >= |context.owner.atoms| then Refused(StaleRevision)
    else
      var planned := context.owner.atoms[ordinal];
      var atom := planned.(changeId := Some(selection.changeId),
                           intent := planned.intent + "\n\nCorrection: " + selection.intent);
      Ok(Repair(context.owner.(atoms := [atom]),
                if ordinal == 0 then context.implementation.parent else context.implementation.atoms[ordinal - 1],
                memoryRevision, context.index, ordinal))
  }

  // ---- reconstruction ----------------------------------------------------------------------------

  /** The guards on the edited atom itself: Change, count, head, parent and identity. */
  ghost predicate EditGuards(previous: Result, repair: Repair, edited: Implementation) {
    && repair.index < |previous.changes|
    && edited.change == previous.changes[repair.index].implementation.change
    && |edited.atoms| == 1
    && SameRevision(edited.atoms[0], edited.head)
    && SameRevision(edited.parent, repair.parent)
    && repair.ordinal < |previous.changes[repair.index].implementation.atoms|
    && edited.head.changeId == previous.changes[repair.index].implementation.atoms[repair.ordinal].changeId
  }

  /** The guards in the order they are tried. */
  method EditPasses(previous: Result, repair: Repair, edited: Implementation) returns (ok: bool)
    ensures ok <==> EditGuards(previous, repair, edited)
  {
    if repair.index >= |previous.changes| { return false; }
    var owner := previous.changes[repair.index].implementation;
    if edited.change != owner.change || |edited.atoms| != 1 { return false; }
    if !SameRevision(edited.atoms[0], edited.head) { return false; }
    if !SameRevision(edited.parent, repair.parent) { return false; }
    if repair.ordinal >= |owner.atoms| || edited.head.changeId != owner.atoms[repair.ordinal].changeId { return false; }
    ok := true;
  }

  /** Position (i, k) comes before the repaired atom. */
  predicate Precedes(repair: Repair, i: nat, k: nat) {
    i < repair.index || (i == repair.index && k < repair.ordinal)
  }

  /** Every implementation lists at least one atom, as its schema demands. */
  ghost predicate Shaped(changes: seq<ValidatedChange>) {
    forall i :: 0 <= i < |changes| ==> |changes[i].implementation.atoms| > 0
  }

  /** The tip of the rebuilt groups below group `i`: what the threaded `parent` variable holds there. */
  function Below(input: Input, i: nat): Revision
    requires i <= |input.previous.changes|
  {
    if i == 0 then input.plan.base
    else
      var known := input.previous.changes[i - 1].implementation;
      if i - 1 < input.repair.index || known.atoms == [] then known.head
      else Current(input.read, known.atoms[|known.atoms| - 1])
  }

  /** Group `i` was found restacked onto what lies below it, with everything before the repair untouched. */
  ghost predicate Restacks(input: Input, i: nat)
    requires i < |input.previous.changes|
  {
    var known := input.previous.changes[i].implementation;
    && (forall k :: 0 <= k < |known.atoms| ==> AtomUsable(input, i, k))
    && Chained(Below(input, i), Refreshed(input.read, known.atoms))
    && (i >= input.repair.index ==> Resolve(input.read, known.parent.changeId).Some?)
  }

  predicate AtomUsable(input: Input, i: nat, k: nat)
    requires i < |input.previous.changes| && k < |input.previous.changes[i].implementation.atoms|
  {
    var known := input.previous.changes[i].implementation.atoms[k];
    && Resolve(input.read, known.changeId).Some?
    && (Precedes(input.repair, i, k) ==> Unchanged(input.read, known))
  }

  /** When `reconstruct` succeeds: the base stands, the edit is the prepared one, and all groups restack. */
  ghost predicate Restackable(input: Input) {
    && Unchanged(input.read, input.plan.base)
    && EditGuards(input.previous, input.repair, input.edited)
    && Unchanged(input.read, input.edited.head)
    && forall i :: 0 <= i < |input.previous.changes| ==> Restacks(input, i)
  }

  /** The general path for one group: fresh revisions, the edited files, and receipts only for an exactly equal input. */
  function Rebuilt(input: Input, i: nat): (group: ValidatedChange)
    requires i < |input.previous.changes| && |input.previous.changes[i].implementation.atoms| > 0
  {
    var prior := input.previous.changes[i];
    var known := prior.implementation;
    var atoms := Refreshed(input.read, known.atoms);
    var implementation := known.(
      parent := Current(input.read, known.parent), atoms := atoms, head := atoms[|atoms| - 1],
      readFiles := if i == input.repair.index then Dedup(known.readFiles + input.edited.readFiles) else known.readFiles,
      writeFiles := if i == input.repair.index then Dedup(known.writeFiles + input.edited.writeFiles) else known.writeFiles);
    if implementation == known then prior else ValidatedChange(implementation, [])
  }

  /** What `reconstruct` returns for one group, including its early return below the repair. */
  function Reconstructed(input: Input, i: nat): ValidatedChange
    requires i < |input.previous.changes| && |input.previous.changes[i].implementation.atoms| > 0
  {
    if i < input.repair.index then input.previous.changes[i] else Rebuilt(input, i)
  }

  /** The nested loops with their threaded `parent` succeed exactly on restackable input and return the groups above. */
  method Reconstruct(input: Input) returns (r: Outcome<seq<ValidatedChange>>)
    requires Shaped(input.previous.changes)
    ensures r.Ok? <==> Restackable(input)
    ensures r.Refused? ==> r.error == StaleRevision
    ensures r.Ok? ==> |r.value| == |input.previous.changes|
    ensures r.Ok? ==> forall i :: 0 <= i < |r.value| ==> r.value[i] == Reconstructed(input, i)
  {
    if !Unchanged(input.read, input.plan.base) { return Refused(StaleRevision); }
    var guarded := EditPasses(input.previous, input.repair, input.edited);
    if !guarded { return Refused(StaleRevision); }
    if !Unchanged(input.read, input.edited.head) { return Refused(StaleRevision); }
    var parent, groups := input.plan.base, [];
    for i := 0 to |input.previous.changes|
      invariant parent == Below(input, i) && RebuiltSoFar(input, i, groups)
    {
      var next := RebuildGroup(input, i, parent);
      if next.None? {
        Unrestackable(input, i);
        return Refused(StaleRevision);
      }
      groups, parent := groups + [next.value.0], next.value.1;
    }
    r := Ok(groups);
  }

  lemma Unrestackable(input: Input, i: nat)
    requires i < |input.previous.changes| && !Restacks(input, i)
    ensures !Restackable(input)
  {
  }

  /** One group on the threaded parent: its rebuilt form and the parent for the next. */
  method RebuildGroup(input: Input, i: nat, below: Revision) returns (r: Option<(ValidatedChange, Revision)>)
    requires Shaped(input.previous.changes) && i < |input.previous.changes| && below == Below(input, i)
    ensures r.Some? <==> Restacks(input, i)
    ensures r.Some? ==> r.value == (Reconstructed(input, i), Below(input, i + 1))
  {
    var group := input.previous.changes[i];
    var usable := AtomsUsable(input, i);
    if !usable { return None; }
    var tip := Thread(below, Refreshed(input.read, group.implementation.atoms));
    if tip.None? { return None; }
    if i < input.repair.index { return Some((group, group.implementation.head)); }
    if Resolve(input.read, group.implementation.parent.changeId).None? { return None; }
    r := Some((Rebuilt(input, i), tip.value));
  }

  /** The first `n` groups restack, and these are their rebuilt forms. */
  ghost predicate RebuiltSoFar(input: Input, n: nat, groups: seq<ValidatedChange>)
    requires Shaped(input.previous.changes)
  {
    && |groups| == n <= |input.previous.changes|
    && forall j :: 0 <= j < n ==> Restacks(input, j) && groups[j] == Reconstructed(input, j)
  }

  method AtomsUsable(input: Input, i: nat) returns (ok: bool)
    requires i < |input.previous.changes|
    ensures ok <==> forall k :: 0 <= k < |input.previous.changes[i].implementation.atoms| ==> AtomUsable(input, i, k)
  {
    for k := 0 to |input.previous.changes[i].implementation.atoms|
      invariant forall j :: 0 <= j < k ==> AtomUsable(input, i, j)
    {
      if !AtomUsable(input, i, k) { return false; }
    }
    ok := true;
  }

  /** The chain walk of one group, from the current tip to its last atom. */
  method Thread(from: Revision, atoms: seq<Revision>) returns (r: Option<Revision>)
    ensures r.Some? <==> Chained(from, atoms)
    ensures r.Some? ==> r.value == Before(from, atoms, |atoms|)
  {
    var parent := from;
    for k := 0 to |atoms|
      invariant parent == Before(from, atoms, k) && Chained(from, atoms[..k])
    {
      ChainedStep(from, atoms, k);
      if !OnlyParent(atoms[k], parent) { return None; }
      parent := atoms[k];
    }
    assert atoms[..|atoms|] == atoms;
    r := Some(parent);
  }

  // ---- what a successful reconstruction keeps ----------------------------------------------------

  ghost predicate IsReconstruction(input: Input, groups: seq<ValidatedChange>) {
    && Shaped(input.previous.changes) && |groups| == |input.previous.changes|
    && forall i :: 0 <= i < |groups| ==> groups[i] == Reconstructed(input, i)
  }

  /** Below the repair nothing moved, so the early return there gives what the general path would have given. */
  lemma EarlyReturnAgrees(input: Input, i: nat)
    requires Restackable(input) && Shaped(input.previous.changes)
    requires Progression(input.plan.base, input.previous.changes)
    requires i < input.repair.index
    ensures Rebuilt(input, i) == input.previous.changes[i]
  {
    var known := input.previous.changes[i].implementation;
    assert Restacks(input, i);
    forall k | 0 <= k < |known.atoms| ensures Refreshed(input.read, known.atoms)[k] == known.atoms[k] {
      assert AtomUsable(input, i, k) && Precedes(input.repair, i, k);
    }
    assert Refreshed(input.read, known.atoms) == known.atoms;
    assert GroupLinear(Foot(input.plan.base, input.previous.changes, i), known);
    if i > 0 {
      var below := input.previous.changes[i - 1].implementation;
      assert GroupLinear(Foot(input.plan.base, input.previous.changes, i - 1), below);
      assert Restacks(input, i - 1) && AtomUsable(input, i - 1, |below.atoms| - 1);
    }
  }

  /** The rebuilt group's revisions, whichever branch produced it. */
  lemma GroupRevisions(input: Input, groups: seq<ValidatedChange>, i: nat)
    requires Restackable(input) && IsReconstruction(input, groups) && i < |groups|
    requires Progression(input.plan.base, input.previous.changes)
    ensures var known, now := input.previous.changes[i].implementation, groups[i].implementation;
      && now.atoms == Refreshed(input.read, known.atoms)
      && now.head == now.atoms[|now.atoms| - 1]
      && now.parent == Current(input.read, known.parent)
      && now.change == known.change
  {
    if i < input.repair.index { EarlyReturnAgrees(input, i); }
  }

  /** A rebuilt progression is linear again, from the same base, group on group, atom on atom. */
  lemma ReconstructionIsLinear(input: Input, groups: seq<ValidatedChange>)
    requires Restackable(input) && IsReconstruction(input, groups)
    requires Progression(input.plan.base, input.previous.changes)
    ensures Progression(input.plan.base, groups)
  {
    forall i | 0 <= i < |groups| ensures GroupLinear(Foot(input.plan.base, groups, i), groups[i].implementation) {
      GroupStands(input, groups, i);
    }
  }

  lemma GroupStands(input: Input, groups: seq<ValidatedChange>, i: nat)
    requires Restackable(input) && IsReconstruction(input, groups) && i < |groups|
    requires Progression(input.plan.base, input.previous.changes)
    ensures GroupLinear(Foot(input.plan.base, groups, i), groups[i].implementation)
  {
    GroupRevisions(input, groups, i);
    FootMoves(input, groups, i);
    assert Restacks(input, i);
    SameTip(Below(input, i), Foot(input.plan.base, groups, i), groups[i].implementation.atoms);
  }

  /** A group's new foot is its old parent as it stands now, and it is the commit the chain was checked against. */
  lemma FootMoves(input: Input, groups: seq<ValidatedChange>, i: nat)
    requires Restackable(input) && IsReconstruction(input, groups) && i < |groups|
    requires Progression(input.plan.base, input.previous.changes)
    ensures Foot(input.plan.base, groups, i) == Current(input.read, input.previous.changes[i].implementation.parent)
    ensures Below(input, i).commitId == Foot(input.plan.base, groups, i).commitId
  {
    var changes := input.previous.changes;
    assert GroupLinear(Foot(input.plan.base, changes, i), changes[i].implementation);
    if i > 0 {
      var below := changes[i - 1].implementation;
      GroupRevisions(input, groups, i - 1);
      assert GroupLinear(Foot(input.plan.base, changes, i - 1), below);
      assert Restacks(input, i - 1) && AtomUsable(input, i - 1, |below.atoms| - 1);
    }
  }

  /** The files of a rebuilt group: its own, joined at the repair by the edit's, each once and in order. */
  lemma RebuiltFiles(input: Input, groups: seq<ValidatedChange>, i: nat)
    requires Restackable(input) && IsReconstruction(input, groups) && i < |groups|
    ensures var known, now := input.previous.changes[i].implementation, groups[i].implementation;
      if i == input.repair.index then
        && InFirstOrder(now.readFiles, known.readFiles + input.edited.readFiles)
        && InFirstOrder(now.writeFiles, known.writeFiles + input.edited.writeFiles)
      else now.readFiles == known.readFiles && now.writeFiles == known.writeFiles
  {
    var known := input.previous.changes[i].implementation;
    DedupInOrder(known.readFiles + input.edited.readFiles);
    DedupInOrder(known.writeFiles + input.edited.writeFiles);
  }

  lemma SameTip(left: Revision, right: Revision, atoms: seq<Revision>)
    requires left.commitId == right.commitId && Chained(left, atoms)
    ensures Chained(right, atoms)
  {
    assert forall k :: 0 <= k < |atoms| ==> Before(left, atoms, k).commitId == Before(right, atoms, k).commitId;
  }

  /** Identities survive, everything before the repair is untouched, and the repaired atom is exactly the edited code. */
  lemma ReconstructionKeepsIdentities(input: Input, groups: seq<ValidatedChange>, i: nat, k: nat)
    requires Restackable(input) && IsReconstruction(input, groups) && i < |groups|
    requires Progression(input.plan.base, input.previous.changes)
    requires k < |input.previous.changes[i].implementation.atoms|
    ensures |groups[i].implementation.atoms| == |input.previous.changes[i].implementation.atoms|
    ensures var known, now := input.previous.changes[i].implementation.atoms[k], groups[i].implementation.atoms[k];
      && now.changeId == known.changeId
      && (Precedes(input.repair, i, k) ==> now == known)
      && (i == input.repair.index && k == input.repair.ordinal ==> SameCode(now, input.edited.head))
    ensures i < input.repair.index ==> groups[i] == input.previous.changes[i]
  {
    GroupRevisions(input, groups, i);
    assert Restacks(input, i) && AtomUsable(input, i, k);
  }

  // ---- evidence ----------------------------------------------------------------------------------

  /** Every receipt of the group exactly matches some planned check of its Change over the group's implementation. */
  ghost predicate Exact(change: Change, group: ValidatedChange) {
    forall r :: r in group.receipts ==> ExactReceipt(change, group.implementation, r)
  }

  ghost predicate ExactReceipt(change: Change, implementation: Implementation, r: Receipt) {
    exists c :: c in change.checks && ReceiptMatches(implementation, c, r)
  }

  /** A receipt binds one implementation: it cannot match two different ones. */
  lemma ReceiptBindsImplementation(left: Implementation, right: Implementation, a: Check, b: Check, r: Receipt)
    requires ReceiptMatches(left, a, r) && ReceiptMatches(right, b, r)
    ensures left == right && a == b
  {
  }

  /** No stale evidence survives: what is kept is exact, and a group whose implementation moved keeps nothing. */
  lemma NoStaleEvidence(input: Input, groups: seq<ValidatedChange>, i: nat)
    requires Restackable(input) && IsReconstruction(input, groups) && i < |groups|
    requires Progression(input.plan.base, input.previous.changes) && |input.plan.changes| == |groups|
    requires Exact(input.plan.changes[i], input.previous.changes[i])
    ensures Exact(input.plan.changes[i], groups[i])
    ensures groups[i].implementation != input.previous.changes[i].implementation ==> groups[i].receipts == []
    ensures groups[i].implementation == input.previous.changes[i].implementation ==> groups[i] == input.previous.changes[i]
    ensures forall c, r :: r in input.previous.changes[i].receipts && ReceiptMatches(groups[i].implementation, c, r)
              ==> groups[i] == input.previous.changes[i]
  {
    var known, now := input.previous.changes[i].implementation, groups[i].implementation;
    forall c, r | r in input.previous.changes[i].receipts && ReceiptMatches(now, c, r) ensures now == known {
      assert ExactReceipt(input.plan.changes[i], known, r);
    }
  }

  // ---- the recheck -------------------------------------------------------------------------------

  function FindExact(implementation: Implementation, check: Check, receipts: seq<Receipt>): (r: Option<Receipt>)
    ensures r.Some? ==> r.value in receipts && ReceiptMatches(implementation, check, r.value)
    ensures r.None? ==> forall x :: x in receipts ==> !ReceiptMatches(implementation, check, x)
  {
    if receipts == [] then None
    else if ReceiptMatches(implementation, check, receipts[0]) then Some(receipts[0])
    else FindExact(implementation, check, receipts[1..])
  }

  /** The first receipt for exactly this input is at `j`. */
  ghost predicate FirstExact(implementation: Implementation, check: Check, receipts: seq<Receipt>, j: nat) {
    && j < |receipts| && ReceiptMatches(implementation, check, receipts[j])
    && forall k :: 0 <= k < j ==> !ReceiptMatches(implementation, check, receipts[k])
  }

  lemma {:induction false} FindsFirstExact(implementation: Implementation, check: Check, receipts: seq<Receipt>) returns (j: nat)
    requires FindExact(implementation, check, receipts).Some?
    ensures FirstExact(implementation, check, receipts, j) && FindExact(implementation, check, receipts) == Some(receipts[j])
  {
    if ReceiptMatches(implementation, check, receipts[0]) {
      j := 0;
    } else {
      var k := FindsFirstExact(implementation, check, receipts[1..]);
      j := k + 1;
      assert forall i :: 1 <= i < j ==> receipts[i] == receipts[1..][i - 1];
    }
  }

  /** A node of the recheck graph: a saved receipt, or an actual execution of the check. */
  datatype CheckNode = Saved(receipt: Receipt) | RunCheck(implementation: Implementation, check: Check)

  function RecheckNode(group: ValidatedChange, check: Check): CheckNode {
    var saved := FindExact(group.implementation, check, group.receipts);
    if saved.Some? then Saved(saved.value) else RunCheck(group.implementation, check)
  }

  /** After a repair, a check runs again exactly when the previous pass holds no receipt for the same exact input. */
  lemma RecheckRunsExactlyTheMissing(input: Input, groups: seq<ValidatedChange>, i: nat, check: Check)
    requires Restackable(input) && IsReconstruction(input, groups) && i < |groups|
    requires Progression(input.plan.base, input.previous.changes) && |input.plan.changes| == |groups|
    requires Exact(input.plan.changes[i], input.previous.changes[i])
    ensures RecheckNode(groups[i], check).RunCheck? <==>
            !exists r :: r in input.previous.changes[i].receipts && ReceiptMatches(groups[i].implementation, check, r)
    ensures RecheckNode(groups[i], check).Saved? ==>
              exists j: nat :: FirstExact(groups[i].implementation, check, groups[i].receipts, j)
                          && RecheckNode(groups[i], check).receipt == groups[i].receipts[j]
    ensures RecheckNode(groups[i], check).RunCheck? ==>
              RecheckNode(groups[i], check) == RunCheck(groups[i].implementation, check)
  {
    NoStaleEvidence(input, groups, i);
    if RecheckNode(groups[i], check).Saved? {
      var j := FindsFirstExact(groups[i].implementation, check, groups[i].receipts);
    }
  }

  // ---- a prepared repair passes the guards -------------------------------------------------------

  /** Whatever the adapter answers, a prepared repair implemented atom by atom passes every guard on the edit. */
  lemma PreparedRepairPassesGuards(
    plan: Plan, previous: Result, read: ReadResult, selection: Selection, ios: nat -> AtomIO)
    requires PrepareContext(plan, previous, read).Ok?
    requires var c := PrepareContext(plan, previous, read).value;
      && c.implementation.change == c.owner.id
      && PrepareRepair(c, selection, plan.memoryRevision).Ok?
    requires var c := PrepareContext(plan, previous, read).value;
      var repair := PrepareRepair(c, selection, plan.memoryRevision).value;
      ImplementAtoms(repair.change, repair.parent, ios).Ok?
    ensures var c := PrepareContext(plan, previous, read).value;
      var repair := PrepareRepair(c, selection, plan.memoryRevision).value;
      EditGuards(previous, repair, ImplementAtoms(repair.change, repair.parent, ios).value)
  {
    var c := PrepareContext(plan, previous, read).value;
    var repair := PrepareRepair(c, selection, plan.memoryRevision).value;
    ImplementAtomsLinear(repair.change, repair.parent, ios);
  }
}
