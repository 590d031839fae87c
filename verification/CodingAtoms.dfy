/**
 * flows/coding/atoms.ts: implementing a Change atom by atom against a native adapter that may answer anything.
 * `AtomIO` is one atom's transcript: whatever the adapter and the editing agent returned, chosen freely.
 */
module CodingAtoms {
  import opened Wrappers
  import opened CodingSchema
  import opened CodingWorkflow

  datatype NativeRevision = Resolved(revision: Revision) | Conflicted(conflictedId: string)
  {
    function Id(): string { if Resolved? then revision.changeId else conflictedId }
  }

  datatype ReadResult = ReadResult(operationId: string, head: NativeRevision, revisions: seq<NativeRevision>)
  datatype OperationResult = OperationResult(accepted: bool, revision: NativeRevision)
  datatype Kind = Create | Edit | Snapshot | Describe
  datatype Operation = Operation(kind: Kind, expectedOperationId: string, target: Revision, description: Option<string>)
  datatype EditReport = EditReport(readFiles: seq<string>, writeFiles: seq<string>)
  datatype AtomResult = AtomResult(revision: Revision, readFiles: seq<string>, writeFiles: seq<string>)

  /** `None` is a native, transport or agent failure. */
  datatype AtomIO = AtomIO(
    enterRead: Option<ReadResult>, entered: Option<OperationResult>, edit: Option<EditReport>,
    snapshotRead: Option<ReadResult>, snapshot: Option<OperationResult>,
    describeRead: Option<ReadResult>, described: Option<OperationResult>)

  /** What one atom sent to the adapter, and how it ended. */
  datatype AtomRun = AtomRun(sent: seq<Operation>, outcome: Outcome<AtomResult>)

  ghost predicate FirstAt(revisions: seq<NativeRevision>, id: string, j: nat) {
    j < |revisions| && revisions[j].Id() == id && forall k :: 0 <= k < j ==> revisions[k].Id() != id
  }

  function FindRevision(revisions: seq<NativeRevision>, id: string): (r: Option<NativeRevision>)
    ensures r.Some? ==> r.value in revisions && r.value.Id() == id
    ensures r.None? ==> forall n :: n in revisions ==> n.Id() != id
  {
    if revisions == [] then None
    else if revisions[0].Id() == id then Some(revisions[0])
    else FindRevision(revisions[1..], id)
  }

  /** The search answers with the first entry of that identity, and with nothing exactly when there is none. */
  lemma {:induction false} FindsExactly(revisions: seq<NativeRevision>, id: string, n: NativeRevision)
    ensures FindRevision(revisions, id) == Some(n) <==> exists j: nat :: FirstAt(revisions, id, j) && revisions[j] == n
  {
    if revisions != [] {
      var tail := revisions[1..];
      assert forall k :: 0 < k < |revisions| ==> revisions[k] == tail[k - 1];
      FindsExactly(tail, id, n);
      if revisions[0].Id() == id {
        assert FirstAt(revisions, id, 0);
      } else {
        forall j: nat | FirstAt(tail, id, j) ensures FirstAt(revisions, id, j + 1) {}
        forall j: nat | FirstAt(revisions, id, j) ensures j > 0 && FirstAt(tail, id, j - 1) {}
      }
    }
  }

  function ReadParent(parent: Revision, read: Option<ReadResult>): (r: Outcome<Revision>)
    ensures r.Ok? ==> read.Some? && SameCode(r.value, parent)
  {
    if read.None? then Refused(NativeFailure)
    else
      var current := FindRevision(read.value.revisions, parent.changeId);
      if current.None? || current.value.Conflicted? || !SameCode(current.value.revision, parent)
      then Refused(StaleRevision)
      else Ok(current.value.revision)
  }

  /** The read's first entry for the change is this resolved revision. */
  ghost predicate Shows(read: ReadResult, revision: Revision) {
    exists j: nat :: FirstAt(read.revisions, revision.changeId, j) && read.revisions[j] == Resolved(revision)
  }

  /** Reading the parent succeeds exactly when it is shown, resolved, with unchanged code. */
  lemma ReadParentExactly(parent: Revision, read: Option<ReadResult>, current: Revision)
    ensures ReadParent(parent, read) == Ok(current) <==> read.Some? && SameCode(current, parent) && Shows(read.value, current)
  {
    if read.Some? { FindsExactly(read.value.revisions, parent.changeId, Resolved(current)); }
  }

  /** An operation may only create on the exact parent, or touch the atom's own change directly above it. */
  predicate Fenced(op: Operation, parent: Revision, own: Option<string>) {
    if op.kind == Create then SameCode(op.target, parent) && own.None?
    else OnlyParent(op.target, parent) && (own.Some? ==> op.target.changeId == own.value)
  }

  function Enter(atom: AtomicPlan, parent: Revision, read: Option<ReadResult>): (r: Outcome<Operation>)
    ensures r.Ok? ==> Fenced(r.value, parent, atom.changeId) && read.Some? && r.value.expectedOperationId == read.value.operationId
  {
    var current := ReadParent(parent, read);
    if current.Refused? then Refused(current.error)
    else if atom.changeId.None? then
      Ok(Operation(Create, read.value.operationId, current.value, Some(atom.message)))
    else
      var target := FindRevision(read.value.revisions, atom.changeId.value);
      if target.None? || target.value.Conflicted? || !OnlyParent(target.value.revision, parent)
      then Refused(StaleRevision)
      else Ok(Operation(Edit, read.value.operationId, target.value.revision, None))
  }

  function PrepareMutation(
    kind: Kind, atom: AtomicPlan, revision: Revision, parent: Revision, read: Option<ReadResult>
  ): (r: Outcome<Operation>)
    requires kind == Snapshot || kind == Describe
    ensures r.Ok? ==> Fenced(r.value, parent, Some(revision.changeId)) && read.Some? && r.value.expectedOperationId == read.value.operationId
    ensures r.Ok? && kind == Describe ==> SameCode(r.value.target, revision)
  {
    var current := ReadParent(parent, read);
    if current.Refused? then Refused(current.error)
    else
      var head := read.value.head;
      if head.Conflicted? || head.revision.changeId != revision.changeId || !OnlyParent(head.revision, parent)
         || (kind == Describe && !SameCode(head.revision, revision))
      then Refused(StaleRevision)
      else Ok(Operation(kind, read.value.operationId, head.revision, if kind == Describe then Some(atom.message) else None))
  }

  /** An answer worth taking: resolved, directly on the parent, another change, the expected one, or a new one accepted. */
  predicate Taken(result: Option<OperationResult>, parent: Revision, expected: Option<string>, revision: Revision) {
    && result.Some? && result.value.revision == Resolved(revision)
    && revision.parentCommitIds == [parent.commitId] && revision.changeId != parent.changeId
    && (expected.Some? ==> revision.changeId == expected.value) && (expected.None? ==> result.value.accepted)
  }

  function Observe(result: Option<OperationResult>, parent: Revision, expected: Option<string>): (r: Outcome<Revision>)
    ensures r.Ok? ==> Taken(result, parent, expected, r.value)
    ensures r.Refused? ==> r.error == if result.None? then NativeFailure else StaleRevision
    ensures r.Refused? && result.Some? && result.value.revision.Resolved? ==>
              !Taken(result, parent, expected, result.value.revision.revision)
    ensures r.Ok? ==> OnlyParent(r.value, parent)
  {
    if result.None? then Refused(NativeFailure)
    else
      var n := result.value.revision;
      if n.Conflicted? || !OnlyParent(n.revision, parent) || n.revision.changeId == parent.changeId
         || (expected.Some? && n.revision.changeId != expected.value)
         || (expected.None? && !result.value.accepted)
      then Refused(StaleRevision)
      else Ok(n.revision)
  }

  /** Enter, edit, snapshot, describe: each mutation is prepared from a fresh read and each answer is observed. */
  function Atom(atom: AtomicPlan, parent: Revision, io: AtomIO): AtomRun {
    var enter := Enter(atom, parent, io.enterRead);
    if enter.Refused? then AtomRun([], Refused(enter.error)) else
    var revision := Observe(io.entered, parent, atom.changeId);
    if revision.Refused? then AtomRun([enter.value], Refused(revision.error)) else
    if io.edit.None? then AtomRun([enter.value], Refused(NativeFailure)) else
    var snapshot := PrepareMutation(Snapshot, atom, revision.value, parent, io.snapshotRead);
    if snapshot.Refused? then AtomRun([enter.value], Refused(snapshot.error)) else
    var captured := Observe(io.snapshot, parent, Some(revision.value.changeId));
    var sent := [enter.value, snapshot.value];
    if captured.Refused? then AtomRun(sent, Refused(captured.error)) else
    var describe := PrepareMutation(Describe, atom, captured.value, parent, io.describeRead);
    if describe.Refused? then AtomRun(sent, Refused(describe.error)) else
    var final := Observe(io.described, parent, Some(revision.value.changeId));
    if final.Refused? then AtomRun(sent + [describe.value], Refused(final.error)) else
    AtomRun(sent + [describe.value], Ok(AtomResult(final.value, io.edit.value.readFiles, io.edit.value.writeFiles)))
  }

  /** Whatever the adapter answers, no atom ever sends a mutation outside its planned parent and its own change. */
  lemma AtomStaysFenced(atom: AtomicPlan, parent: Revision, io: AtomIO)
    ensures forall op :: op in Atom(atom, parent, io).sent ==> Fenced(op, parent, atom.changeId)
    ensures Atom(atom, parent, io).outcome.Ok? ==>
              var revision := Atom(atom, parent, io).outcome.value.revision;
              && OnlyParent(revision, parent) && revision.changeId != parent.changeId
              && (atom.changeId.Some? ==> revision.changeId == atom.changeId.value)
              && (atom.changeId.None? ==> io.entered.Some? && io.entered.value.accepted)
              && |Atom(atom, parent, io).sent| == 3
  {
    var revision := Observe(io.entered, parent, atom.changeId);
    if revision.Ok? {
      var snapshot := PrepareMutation(Snapshot, atom, revision.value, parent, io.snapshotRead);
      assert snapshot.Ok? ==> Fenced(snapshot.value, parent, atom.changeId);
      var captured := Observe(io.snapshot, parent, Some(revision.value.changeId));
      if captured.Ok? {
        var describe := PrepareMutation(Describe, atom, captured.value, parent, io.describeRead);
        assert describe.Ok? ==> Fenced(describe.value, parent, atom.changeId);
      }
    }
  }

  /** Entering succeeds exactly when the parent is shown unchanged and an existing atom is shown directly above it. */
  lemma EnterExactly(atom: AtomicPlan, parent: Revision, read: Option<ReadResult>, op: Operation)
    ensures Enter(atom, parent, read) == Ok(op) <==>
      && read.Some? && op.expectedOperationId == read.value.operationId
      && ReadParent(parent, read).Ok?
      && if atom.changeId.None? then
           op.kind == Create && Ok(op.target) == ReadParent(parent, read) && op.description == Some(atom.message)
         else
           && op.kind == Edit && op.description == None && op.target.changeId == atom.changeId.value
           && OnlyParent(op.target, parent) && Shows(read.value, op.target)
  {
    if read.Some? && atom.changeId.Some? {
      FindsExactly(read.value.revisions, atom.changeId.value, Resolved(op.target));
    }
  }

  /** A mutation is prepared exactly when the parent is unchanged and the working copy is the atom directly above it. */
  lemma MutationExactly(kind: Kind, atom: AtomicPlan, revision: Revision, parent: Revision, read: Option<ReadResult>, op: Operation)
    requires kind == Snapshot || kind == Describe
    ensures PrepareMutation(kind, atom, revision, parent, read) == Ok(op) <==>
      && read.Some? && ReadParent(parent, read).Ok? && op.kind == kind
      && op.expectedOperationId == read.value.operationId && read.value.head == Resolved(op.target)
      && op.target.changeId == revision.changeId && OnlyParent(op.target, parent)
      && (kind == Describe ==> SameCode(op.target, revision))
      && op.description == if kind == Describe then Some(atom.message) else None
  {
  }

  /** The first operation creates or edits, by the first read. */
  ghost predicate EntersFirst(atom: AtomicPlan, io: AtomIO, sent: seq<Operation>) {
    |sent| >= 1 ==>
      && io.enterRead.Some? && sent[0].expectedOperationId == io.enterRead.value.operationId
      && sent[0].kind == if atom.changeId.None? then Create else Edit
  }

  /** The second snapshots the entered atom, after the edit and by a fresh read. */
  ghost predicate SnapshotsNext(atom: AtomicPlan, parent: Revision, io: AtomIO, sent: seq<Operation>) {
    |sent| >= 2 ==>
      && (exists entered :: Taken(io.entered, parent, atom.changeId, entered) && sent[1].target.changeId == entered.changeId)
      && io.edit.Some? && io.snapshotRead.Some? && sent[1].kind == Snapshot && sent[1].description == None
      && sent[1].expectedOperationId == io.snapshotRead.value.operationId
  }

  /** The third describes exactly the captured code, by another fresh read. */
  ghost predicate DescribesLast(atom: AtomicPlan, parent: Revision, io: AtomIO, sent: seq<Operation>) {
    |sent| >= 3 ==>
      && (exists captured :: Taken(io.snapshot, parent, Some(sent[1].target.changeId), captured) && SameCode(sent[2].target, captured))
      && io.describeRead.Some? && sent[2].kind == Describe && sent[2].description == Some(atom.message)
      && sent[2].expectedOperationId == io.describeRead.value.operationId
  }

  /** The result is the described revision and the agent's report, after a complete exchange. */
  ghost predicate Delivers(atom: AtomicPlan, parent: Revision, io: AtomIO, run: AtomRun) {
    run.outcome.Ok? ==>
      && |run.sent| == 3 && io.edit.Some?
      && Taken(io.described, parent, Some(run.sent[1].target.changeId), run.outcome.value.revision)
      && run.outcome.value.readFiles == io.edit.value.readFiles && run.outcome.value.writeFiles == io.edit.value.writeFiles
      && (atom.changeId.None? ==> io.entered.Some? && io.entered.value.accepted)
  }

  /** Whatever the adapter answers, an atom enters, edits, snapshots and describes, in that order and on fresh reads. */
  lemma AtomFollowsProtocol(atom: AtomicPlan, parent: Revision, io: AtomIO)
    ensures var sent := Atom(atom, parent, io).sent;
      |sent| <= 3 && EntersFirst(atom, io, sent) && SnapshotsNext(atom, parent, io, sent) && DescribesLast(atom, parent, io, sent)
  {
    AtomEnters(atom, parent, io);
    AtomSnapshots(atom, parent, io);
    AtomDescribes(atom, parent, io);
  }

  lemma AtomEnters(atom: AtomicPlan, parent: Revision, io: AtomIO)
    ensures |Atom(atom, parent, io).sent| <= 3 && EntersFirst(atom, io, Atom(atom, parent, io).sent)
  {
  }

  lemma AtomSnapshots(atom: AtomicPlan, parent: Revision, io: AtomIO)
    ensures SnapshotsNext(atom, parent, io, Atom(atom, parent, io).sent)
  {
    var entered := Observe(io.entered, parent, atom.changeId);
    assert entered.Ok? ==> Taken(io.entered, parent, atom.changeId, entered.value);
  }

  lemma AtomDescribes(atom: AtomicPlan, parent: Revision, io: AtomIO)
    ensures DescribesLast(atom, parent, io, Atom(atom, parent, io).sent)
  {
    var entered := Observe(io.entered, parent, atom.changeId);
    if entered.Ok? {
      var captured := Observe(io.snapshot, parent, Some(entered.value.changeId));
      assert captured.Ok? ==> Taken(io.snapshot, parent, Some(entered.value.changeId), captured.value);
    }
  }

  lemma AtomDelivers(atom: AtomicPlan, parent: Revision, io: AtomIO)
    ensures Delivers(atom, parent, io, Atom(atom, parent, io))
  {
  }

  /** What a transcript says about its atom: its report, its described revision, and acceptance of a new atom. */
  ghost predicate Reported(planned: AtomicPlan, io: AtomIO, result: AtomResult) {
    && io.edit.Some? && result.readFiles == io.edit.value.readFiles && result.writeFiles == io.edit.value.writeFiles
    && io.described.Some? && io.described.value.revision == Resolved(result.revision)
    && (planned.changeId.None? ==> io.entered.Some? && io.entered.value.accepted)
  }

  /** The recursion over ordinals: each atom's observed revision is the parent of the next. */
  function Atoms(change: Change, parent: Revision, ios: nat -> AtomIO, ordinal: nat): Outcome<seq<AtomResult>>
    requires ordinal <= |change.atoms|
    decreases |change.atoms| - ordinal
  {
    if ordinal == |change.atoms| then Ok([])
    else
      var current := Atom(change.atoms[ordinal], parent, ios(ordinal)).outcome;
      if current.Refused? then Refused(current.error)
      else
        var rest := Atoms(change, current.value.revision, ios, ordinal + 1);
        if rest.Refused? then rest else Ok([current.value] + rest.value)
  }

  function Revisions(results: seq<AtomResult>): (rs: seq<Revision>)
    ensures |rs| == |results| && forall i :: 0 <= i < |rs| ==> rs[i] == results[i].revision
  {
    seq(|results|, i requires 0 <= i < |results| => results[i].revision)
  }

  function Reads(results: seq<AtomResult>): (files: seq<seq<string>>)
    ensures |files| == |results| && forall k :: 0 <= k < |files| ==> files[k] == results[k].readFiles
  {
    seq(|results|, k requires 0 <= k < |results| => results[k].readFiles)
  }

  function Writes(results: seq<AtomResult>): (files: seq<seq<string>>)
    ensures |files| == |results| && forall k :: 0 <= k < |files| ==> files[k] == results[k].writeFiles
  {
    seq(|results|, k requires 0 <= k < |results| => results[k].writeFiles)
  }

  function ImplementAtoms(change: Change, parent: Revision, ios: nat -> AtomIO): Outcome<Implementation>
    requires |change.atoms| > 0  // non-empty by schema
  {
    var results := Atoms(change, parent, ios, 0);
    if results.Refused? then Refused(results.error)
    else
      AtomsSound(change, parent, ios, 0);
      var atoms := Revisions(results.value);
      Ok(Implementation(change.id, parent, atoms, atoms[|atoms| - 1],
                        Dedup(Concat(Reads(results.value))), Dedup(Concat(Writes(results.value)))))
  }

  /** No atom reuses the identity of the atom directly below it. */
  ghost predicate Steps(parent: Revision, atoms: seq<Revision>) {
    forall k {:trigger Before(parent, atoms, k)} :: 0 <= k < |atoms| ==> atoms[k].changeId != Before(parent, atoms, k).changeId
  }

  /** One revision per planned atom, chained from the parent, with neighbours apart and planned identities kept. */
  ghost predicate Linked(planned: seq<AtomicPlan>, parent: Revision, rs: seq<Revision>) {
    |rs| == |planned| && Chained(parent, rs) && Steps(parent, rs) && Keeps(planned, rs)
  }

  lemma {:induction false} AtomsSound(change: Change, parent: Revision, ios: nat -> AtomIO, ordinal: nat)
    requires ordinal <= |change.atoms|
    ensures Atoms(change, parent, ios, ordinal).Ok? ==>
              Linked(change.atoms[ordinal..], parent, Revisions(Atoms(change, parent, ios, ordinal).value))
    decreases |change.atoms| - ordinal
  {
    if Atoms(change, parent, ios, ordinal).Ok? {
      if ordinal == |change.atoms| {
        AtomsNone(change, parent, ios);
      } else {
        var first := AtomsSplit(change, parent, ios, ordinal);
        AtomsSound(change, first.revision, ios, ordinal + 1);
        var rest := Atoms(change, first.revision, ios, ordinal + 1).value;
        LinkedCons(change.atoms, ordinal, parent, first.revision, Revisions(rest));
        assert Revisions([first] + rest) == [first.revision] + Revisions(rest);
      }
    }
  }

  lemma AtomsNone(change: Change, parent: Revision, ios: nat -> AtomIO)
    ensures Atoms(change, parent, ios, |change.atoms|).Ok?
    ensures Linked(change.atoms[|change.atoms|..], parent, Revisions(Atoms(change, parent, ios, |change.atoms|).value))
  {
  }

  /** A successful recursion is its first atom's result, fenced to the parent, and a successful rest above it. */
  lemma AtomsSplit(change: Change, parent: Revision, ios: nat -> AtomIO, ordinal: nat) returns (first: AtomResult)
    requires ordinal < |change.atoms| && Atoms(change, parent, ios, ordinal).Ok?
    ensures OnlyParent(first.revision, parent) && first.revision.changeId != parent.changeId
    ensures change.atoms[ordinal].changeId.Some? ==> first.revision.changeId == change.atoms[ordinal].changeId.value
    ensures Reported(change.atoms[ordinal], ios(ordinal), first)
    ensures Atoms(change, first.revision, ios, ordinal + 1).Ok?
    ensures Atoms(change, parent, ios, ordinal).value == [first] + Atoms(change, first.revision, ios, ordinal + 1).value
  {
    AtomStaysFenced(change.atoms[ordinal], parent, ios(ordinal));
    AtomDelivers(change.atoms[ordinal], parent, ios(ordinal));
    first := Atom(change.atoms[ordinal], parent, ios(ordinal)).outcome.value;
  }

  lemma LinkedCons(planned: seq<AtomicPlan>, ordinal: nat, parent: Revision, first: Revision, rest: seq<Revision>)
    requires ordinal < |planned| && Linked(planned[ordinal + 1..], first, rest)
    requires OnlyParent(first, parent) && first.changeId != parent.changeId
    requires planned[ordinal].changeId.Some? ==> first.changeId == planned[ordinal].changeId.value
    ensures Linked(planned[ordinal..], parent, [first] + rest)
  {
    ChainCons(parent, first, rest);
    StepsCons(parent, first, rest);
    assert planned[ordinal..][1..] == planned[ordinal + 1..];
    KeepsCons(planned[ordinal..], first, rest);
  }

  lemma ChainCons(parent: Revision, first: Revision, rest: seq<Revision>)
    requires OnlyParent(first, parent) && Chained(first, rest)
    ensures Chained(parent, [first] + rest)
  {
    var all := [first] + rest;
    forall k | 0 <= k < |all| ensures OnlyParent(all[k], Before(parent, all, k)) {
      if k > 0 { assert all[k] == rest[k - 1] && Before(parent, all, k) == Before(first, rest, k - 1); }
    }
  }

  lemma StepsCons(parent: Revision, first: Revision, rest: seq<Revision>)
    requires first.changeId != parent.changeId && Steps(first, rest)
    ensures Steps(parent, [first] + rest)
  {
    var all := [first] + rest;
    forall k | 0 <= k < |all| ensures all[k].changeId != Before(parent, all, k).changeId {
      if k > 0 { assert all[k] == rest[k - 1] && Before(parent, all, k) == Before(first, rest, k - 1); }
    }
  }

  lemma KeepsCons(planned: seq<AtomicPlan>, first: Revision, rest: seq<Revision>)
    requires planned != [] && (planned[0].changeId.Some? ==> first.changeId == planned[0].changeId.value)
    requires Keeps(planned[1..], rest)
    ensures Keeps(planned, [first] + rest)
  {
    assert forall k :: 0 < k < |planned| ==> planned[k] == planned[1..][k - 1];
  }

  /** The results from `ordinal` on, each as its transcript reports it. */
  ghost predicate ReportedFrom(planned: seq<AtomicPlan>, ios: nat -> AtomIO, ordinal: nat, results: seq<AtomResult>) {
    && ordinal + |results| == |planned|
    && forall k: nat :: k < |results| ==> Reported(planned[ordinal + k], ios(ordinal + k), results[k])
  }

  lemma ReportedCons(planned: seq<AtomicPlan>, ios: nat -> AtomIO, ordinal: nat, first: AtomResult, rest: seq<AtomResult>)
    requires ordinal < |planned| && Reported(planned[ordinal], ios(ordinal), first)
    requires ReportedFrom(planned, ios, ordinal + 1, rest)
    ensures ReportedFrom(planned, ios, ordinal, [first] + rest)
  {
    var all := [first] + rest;
    forall k: nat | k < |all| ensures Reported(planned[ordinal + k], ios(ordinal + k), all[k]) {
      if k > 0 { assert Reported(planned[ordinal + 1 + (k - 1)], ios(ordinal + 1 + (k - 1)), rest[k - 1]); }
    }
  }

  lemma {:induction false} AtomsReported(change: Change, parent: Revision, ios: nat -> AtomIO, ordinal: nat)
    requires ordinal <= |change.atoms| && Atoms(change, parent, ios, ordinal).Ok?
    ensures ReportedFrom(change.atoms, ios, ordinal, Atoms(change, parent, ios, ordinal).value)
    decreases |change.atoms| - ordinal
  {
    if ordinal < |change.atoms| {
      var first := AtomsSplit(change, parent, ios, ordinal);
      AtomsReported(change, first.revision, ios, ordinal + 1);
      ReportedCons(change.atoms, ios, ordinal, first, Atoms(change, first.revision, ios, ordinal + 1).value);
    }
  }

  function ReadReports(ios: nat -> AtomIO, n: nat): (files: seq<seq<string>>)
    ensures |files| == n
  {
    seq(n, k requires 0 <= k < n => if ios(k).edit.Some? then ios(k).edit.value.readFiles else [])
  }

  function WriteReports(ios: nat -> AtomIO, n: nat): (files: seq<seq<string>>)
    ensures |files| == n
  {
    seq(n, k requires 0 <= k < n => if ios(k).edit.Some? then ios(k).edit.value.writeFiles else [])
  }

  /** The files of the agents' reports, each once, in order of first report. */
  ghost predicate FilesReported(ios: nat -> AtomIO, n: nat, readFiles: seq<string>, writeFiles: seq<string>) {
    InFirstOrder(readFiles, Concat(ReadReports(ios, n))) && InFirstOrder(writeFiles, Concat(WriteReports(ios, n)))
  }

  lemma ResultFiles(planned: seq<AtomicPlan>, ios: nat -> AtomIO, results: seq<AtomResult>)
    requires ReportedFrom(planned, ios, 0, results)
    ensures FilesReported(ios, |planned|, Dedup(Concat(Reads(results))), Dedup(Concat(Writes(results))))
  {
    assert forall k: nat :: k < |results| ==> Reported(planned[0 + k], ios(0 + k), results[k]);
    assert Reads(results) == ReadReports(ios, |planned|) && Writes(results) == WriteReports(ios, |planned|);
    DedupInOrder(Concat(Reads(results)));
    DedupInOrder(Concat(Writes(results)));
  }

  /** Each atom is the revision last described, and a new one was accepted. */
  ghost predicate Settled(planned: seq<AtomicPlan>, ios: nat -> AtomIO, atoms: seq<Revision>) {
    && |atoms| == |planned|
    && forall k: nat :: k < |atoms| ==>
         && ios(k).described.Some? && ios(k).described.value.revision == Resolved(atoms[k])
         && (planned[k].changeId.None? ==> ios(k).entered.Some? && ios(k).entered.value.accepted)
  }

  lemma ResultsSettled(planned: seq<AtomicPlan>, ios: nat -> AtomIO, results: seq<AtomResult>)
    requires ReportedFrom(planned, ios, 0, results)
    ensures Settled(planned, ios, Revisions(results))
  {
    forall k: nat | k < |results| ensures Reported(planned[k], ios(k), results[k]) {
      assert Reported(planned[0 + k], ios(0 + k), results[k]);
    }
  }

  lemma ImplementAtomsLinear(change: Change, parent: Revision, ios: nat -> AtomIO)
    requires |change.atoms| > 0
    requires ImplementAtoms(change, parent, ios).Ok?
    ensures var i := ImplementAtoms(change, parent, ios).value;
      && i.change == change.id && i.parent == parent
      && |i.atoms| == |change.atoms| && i.head == i.atoms[|i.atoms| - 1]
      && Chained(parent, i.atoms) && Steps(parent, i.atoms) && Keeps(change.atoms, i.atoms)
  {
    AtomsSound(change, parent, ios, 0);
    assert change.atoms[0..] == change.atoms;
  }

  lemma ImplementAtomsReported(change: Change, parent: Revision, ios: nat -> AtomIO)
    requires |change.atoms| > 0 && ImplementAtoms(change, parent, ios).Ok?
    ensures var i := ImplementAtoms(change, parent, ios).value;
      FilesReported(ios, |change.atoms|, i.readFiles, i.writeFiles) && Settled(change.atoms, ios, i.atoms)
  {
    var results := Atoms(change, parent, ios, 0).value;
    AtomsReported(change, parent, ios, 0);
    ResultFiles(change.atoms, ios, results);
    ResultsSettled(change.atoms, ios, results);
  }

  /**
   * A successful implementation has exactly one revision per planned atom, chained by single parents from the given
   * parent, keeps every planned native identity, ends at its head, and never repeats the identity directly below. Each
   * atom is the revision last described, a new one was accepted, and the files are those of the agents' reports, each
   * once, in order of first report.
   */
  lemma ImplementAtomsSound(change: Change, parent: Revision, ios: nat -> AtomIO)
    requires |change.atoms| > 0
    requires ImplementAtoms(change, parent, ios).Ok?
    ensures var i := ImplementAtoms(change, parent, ios).value;
      && i.change == change.id && i.parent == parent
      && |i.atoms| == |change.atoms| && i.head == i.atoms[|i.atoms| - 1]
      && Chained(parent, i.atoms) && Steps(parent, i.atoms) && Keeps(change.atoms, i.atoms)
      && FilesReported(ios, |change.atoms|, i.readFiles, i.writeFiles) && Settled(change.atoms, ios, i.atoms)
  {
    ImplementAtomsLinear(change, parent, ios);
    ImplementAtomsReported(change, parent, ios);
  }

  /** A file is listed as read, or as written, exactly when some atom's report lists it so. */
  lemma ImplementedFiles(change: Change, parent: Revision, ios: nat -> AtomIO, file: string)
    requires |change.atoms| > 0 && ImplementAtoms(change, parent, ios).Ok?
    ensures file in ImplementAtoms(change, parent, ios).value.readFiles <==>
      exists k: nat :: k < |change.atoms| && ios(k).edit.Some? && file in ios(k).edit.value.readFiles
    ensures file in ImplementAtoms(change, parent, ios).value.writeFiles <==>
      exists k: nat :: k < |change.atoms| && ios(k).edit.Some? && file in ios(k).edit.value.writeFiles
  {
    ImplementAtomsReported(change, parent, ios);
    ReadsReported(ios, |change.atoms|, file);
    WritesReported(ios, |change.atoms|, file);
  }

  lemma ReadsReported(ios: nat -> AtomIO, n: nat, file: string)
    ensures file in Concat(ReadReports(ios, n)) <==>
      exists k: nat :: k < n && ios(k).edit.Some? && file in ios(k).edit.value.readFiles
  {
    InConcat(ReadReports(ios, n), file);
    assert forall k: nat :: k < n && ios(k).edit.Some? ==> ReadReports(ios, n)[k] == ios(k).edit.value.readFiles;
  }

  lemma WritesReported(ios: nat -> AtomIO, n: nat, file: string)
    ensures file in Concat(WriteReports(ios, n)) <==>
      exists k: nat :: k < n && ios(k).edit.Some? && file in ios(k).edit.value.writeFiles
  {
    InConcat(WriteReports(ios, n), file);
    assert forall k: nat :: k < n && ios(k).edit.Some? ==> WriteReports(ios, n)[k] == ios(k).edit.value.writeFiles;
  }

  /** The fast gate's revision guards accept such an implementation exactly when no native identity occurs twice. */
  lemma GateAcceptsExactly(change: Change, parent: Revision, ios: nat -> AtomIO)
    requires |change.atoms| > 0
    requires ImplementAtoms(change, parent, ios).Ok?
    ensures var i := ImplementAtoms(change, parent, ios).value;
      Implements(change, parent, i) <==> Distinct([parent.changeId] + AtomIds(i.atoms))
  {
    ImplementAtomsLinear(change, parent, ios);
  }

  /** A one-atom Change leaves nothing to repeat: its implementation always passes those guards. */
  lemma SingleAtomAlwaysLinear(change: Change, parent: Revision, ios: nat -> AtomIO)
    requires |change.atoms| == 1
    requires ImplementAtoms(change, parent, ios).Ok?
    ensures Implements(change, parent, ImplementAtoms(change, parent, ios).value)
  {
    ImplementAtomsLinear(change, parent, ios);
    var i := ImplementAtoms(change, parent, ios).value;
    var id := i.atoms[0].changeId;
    assert Before(parent, i.atoms, 0) == parent;
    assert [parent.changeId] + AtomIds(i.atoms) == [] + [parent.changeId] + [id];
    Admit([], parent.changeId);
    Admit([] + [parent.changeId], id);
  }

  // ---- which plans leave the adapter no room to repeat an identity -----------------------------------

  /** The identity fixed directly below atom `k` of the plan, if one is. */
  function FixedBelow(planned: seq<AtomicPlan>, parentId: string, k: nat): Option<string>
    requires k <= |planned|
  {
    if k == 0 then Some(parentId) else planned[k - 1].changeId
  }

  /** The plan fixes the same identity for two neighbours, which no answer of the adapter can get past `Observe`. */
  predicate Unsatisfiable(planned: seq<AtomicPlan>, parentId: string) {
    exists k: nat | k < |planned| :: planned[k].changeId.Some? && planned[k].changeId == FixedBelow(planned, parentId, k)
  }

  predicate AllFixed(planned: seq<AtomicPlan>) {
    forall k :: 0 <= k < |planned| ==> planned[k].changeId.Some?
  }

  function FixedIds(planned: seq<AtomicPlan>): (ids: seq<string>)
    requires AllFixed(planned)
    ensures |ids| == |planned| && forall k :: 0 <= k < |ids| ==> ids[k] == planned[k].changeId.value
  {
    seq(|planned|, k requires 0 <= k < |planned| => planned[k].changeId.value)
  }

  /** One atom; or a new atom between two different fixed identities; or only fixed, distinct identities. */
  ghost predicate ForcesDistinct(planned: seq<AtomicPlan>, parentId: string) {
    || |planned| == 1
    || (|planned| == 2 && planned[0].changeId.None? && planned[1].changeId.Some? && planned[1].changeId.value != parentId)
    || (AllFixed(planned) && Distinct([parentId] + FixedIds(planned)))
  }

  lemma TwoDistinct(a: string, b: string)
    ensures Distinct([a, b]) <==> a != b
  {
    assert [a, b] == [] + [a] + [b];
    Admit([], a);
    Admit([] + [a], b);
  }

  lemma ThreeDistinct(a: string, b: string, c: string)
    ensures Distinct([a, b, c]) <==> a != b && a != c && b != c
  {
    assert [a, b, c] == [a, b] + [c];
    TwoDistinct(a, b);
    Admit([a, b], c);
  }

  /** Where the plan forces distinctness, every successful implementation passes the gate's revision guards. */
  lemma ForcedIsLinear(change: Change, parent: Revision, ios: nat -> AtomIO)
    requires |change.atoms| > 0 && ImplementAtoms(change, parent, ios).Ok?
    requires ForcesDistinct(change.atoms, parent.changeId)
    ensures Implements(change, parent, ImplementAtoms(change, parent, ios).value)
  {
    ImplementAtomsLinear(change, parent, ios);
    var atoms := ImplementAtoms(change, parent, ios).value.atoms;
    var ids := AtomIds(atoms);
    if |change.atoms| == 1 {
      SingleAtomAlwaysLinear(change, parent, ios);
    } else if AllFixed(change.atoms) && Distinct([parent.changeId] + FixedIds(change.atoms)) {
      assert ids == FixedIds(change.atoms);
    } else {
      assert Before(parent, atoms, 0) == parent && Before(parent, atoms, 1) == atoms[0];
      ThreeDistinct(parent.changeId, ids[0], ids[1]);
      assert [parent.changeId] + ids == [parent.changeId, ids[0], ids[1]];
    }
  }

  lemma UnsatisfiableNeverSucceeds(change: Change, parent: Revision, ios: nat -> AtomIO)
    requires |change.atoms| > 0 && Unsatisfiable(change.atoms, parent.changeId)
    ensures ImplementAtoms(change, parent, ios).Refused?
  {
    var k: nat :| k < |change.atoms| && change.atoms[k].changeId.Some?
      && change.atoms[k].changeId == FixedBelow(change.atoms, parent.changeId, k);
    if ImplementAtoms(change, parent, ios).Ok? {
      ImplementAtomsLinear(change, parent, ios);
      var below := Before(parent, ImplementAtoms(change, parent, ios).value.atoms, k);
    }
  }

  // ---- an adapter for any admissible identities --------------------------------------------------------

  /** Identities an adapter may answer with: the planned ones where fixed, and never the one directly below. */
  ghost predicate Admissible(planned: seq<AtomicPlan>, parentId: string, ids: seq<string>) {
    && |ids| == |planned|
    && forall k {:trigger planned[k]} :: 0 <= k < |ids| ==>
         && (planned[k].changeId.Some? ==> ids[k] == planned[k].changeId.value)
         && ids[k] != (if k == 0 then parentId else ids[k - 1])
  }

  function Long(n: nat): string {
    seq(n, _ => 'c')
  }

  /** A chain of revisions with these identities. */
  function Built(parent: Revision, ids: seq<string>): (rs: seq<Revision>)
    ensures |rs| == |ids| && AtomIds(rs) == ids && Chained(parent, rs)
  {
    var rs := seq(|ids|, k requires 0 <= k < |ids| =>
      Revision(ids[k], Long(k + 1), Long(k + 1), "op", [if k == 0 then parent.commitId else Long(k)]));
    rs
  }

  function IOFor(parent: Revision, revision: Revision): AtomIO {
    var read := Some(ReadResult("op", Resolved(revision), [Resolved(parent), Resolved(revision)]));
    var done := Some(OperationResult(true, Resolved(revision)));
    AtomIO(read, done, Some(EditReport([], [])), read, done, read, done)
  }

  lemma IOForSucceeds(atom: AtomicPlan, parent: Revision, revision: Revision)
    requires OnlyParent(revision, parent) && revision.changeId != parent.changeId
    requires atom.changeId.Some? ==> revision.changeId == atom.changeId.value
    ensures Atom(atom, parent, IOFor(parent, revision)).outcome == Ok(AtomResult(revision, [], []))
  {
    var all := [Resolved(parent), Resolved(revision)];
    assert all[1..] == [Resolved(revision)];
    assert FindRevision(all, parent.changeId) == Some(Resolved(parent));
    assert FindRevision(all[1..], revision.changeId) == Some(Resolved(revision));
    assert FindRevision(all, revision.changeId) == Some(Resolved(revision));
  }

  function IOs(parent: Revision, atoms: seq<Revision>): nat -> AtomIO {
    (k: nat) => if k < |atoms| then IOFor(Before(parent, atoms, k), atoms[k]) else IOFor(parent, parent)
  }

  /** Atom `k`, on the revision below it, ends with its own revision. */
  ghost predicate AnsweredAt(change: Change, parent: Revision, atoms: seq<Revision>, ios: nat -> AtomIO, k: nat) {
    && k < |atoms| == |change.atoms|
    && Atom(change.atoms[k], Before(parent, atoms, k), ios(k)).outcome == Ok(AtomResult(atoms[k], [], []))
  }

  lemma IOsAnswer(change: Change, parent: Revision, atoms: seq<Revision>, k: nat)
    requires k < |atoms| == |change.atoms| && Chained(parent, atoms)
    requires Admissible(change.atoms, parent.changeId, AtomIds(atoms))
    ensures AnsweredAt(change, parent, atoms, IOs(parent, atoms), k)
  {
    var ids, atom := AtomIds(atoms), change.atoms[k];
    assert ids[k] != if k == 0 then parent.changeId else ids[k - 1];
    IOForSucceeds(change.atoms[k], Before(parent, atoms, k), atoms[k]);
  }

  /** The recursion from `ordinal` on succeeds with exactly the revisions from there on. */
  ghost predicate YieldsFrom(change: Change, parent: Revision, atoms: seq<Revision>, ios: nat -> AtomIO, ordinal: nat) {
    && ordinal <= |atoms| == |change.atoms|
    && var r := Atoms(change, Before(parent, atoms, ordinal), ios, ordinal);
       r.Ok? && Revisions(r.value) == atoms[ordinal..]
  }

  lemma YieldsNone(change: Change, parent: Revision, atoms: seq<Revision>, ios: nat -> AtomIO)
    requires |atoms| == |change.atoms|
    ensures YieldsFrom(change, parent, atoms, ios, |atoms|)
  {
  }

  lemma YieldsStep(change: Change, parent: Revision, atoms: seq<Revision>, ios: nat -> AtomIO, ordinal: nat)
    requires AnsweredAt(change, parent, atoms, ios, ordinal) && YieldsFrom(change, parent, atoms, ios, ordinal + 1)
    ensures YieldsFrom(change, parent, atoms, ios, ordinal)
  {
    var first := AtomResult(atoms[ordinal], [], []);
    AtomsCons(change, Before(parent, atoms, ordinal), ios, ordinal, first);
    SuffixCons(atoms, ordinal, first, Atoms(change, atoms[ordinal], ios, ordinal + 1).value);
  }

  lemma AtomsCons(change: Change, below: Revision, ios: nat -> AtomIO, ordinal: nat, first: AtomResult)
    requires ordinal < |change.atoms| && Atom(change.atoms[ordinal], below, ios(ordinal)).outcome == Ok(first)
    requires Atoms(change, first.revision, ios, ordinal + 1).Ok?
    ensures Atoms(change, below, ios, ordinal) == Ok([first] + Atoms(change, first.revision, ios, ordinal + 1).value)
  {
  }

  lemma SuffixCons(atoms: seq<Revision>, ordinal: nat, first: AtomResult, rest: seq<AtomResult>)
    requires ordinal < |atoms| && first.revision == atoms[ordinal] && Revisions(rest) == atoms[ordinal + 1..]
    ensures Revisions([first] + rest) == atoms[ordinal..]
  {
    assert Revisions([first] + rest) == [first.revision] + Revisions(rest);
    assert atoms[ordinal..] == [atoms[ordinal]] + atoms[ordinal + 1..];
  }

  lemma IOsYieldStep(change: Change, parent: Revision, atoms: seq<Revision>, ordinal: nat)
    requires ordinal < |atoms| == |change.atoms| && Chained(parent, atoms)
    requires Admissible(change.atoms, parent.changeId, AtomIds(atoms))
    requires YieldsFrom(change, parent, atoms, IOs(parent, atoms), ordinal + 1)
    ensures YieldsFrom(change, parent, atoms, IOs(parent, atoms), ordinal)
  {
    IOsAnswer(change, parent, atoms, ordinal);
    YieldsStep(change, parent, atoms, IOs(parent, atoms), ordinal);
  }

  /** From the last atom down, the answers make every suffix of the recursion succeed. */
  lemma IOsYield(change: Change, parent: Revision, atoms: seq<Revision>)
    requires |atoms| == |change.atoms| && Chained(parent, atoms)
    requires Admissible(change.atoms, parent.changeId, AtomIds(atoms))
    ensures YieldsFrom(change, parent, atoms, IOs(parent, atoms), 0)
  {
    var works := (k: nat) => YieldsFrom(change, parent, atoms, IOs(parent, atoms), k);
    YieldsNone(change, parent, atoms, IOs(parent, atoms));
    forall k: nat | k < |atoms| && works(k + 1) ensures works(k) {
      IOsYieldStep(change, parent, atoms, k);
    }
    Downward(works, |atoms|, 0);
  }

  /** Whatever admissible identities one names, some adapter answers make the implementation succeed with them. */
  lemma Realizable(change: Change, parent: Revision, ids: seq<string>) returns (ios: nat -> AtomIO)
    requires |change.atoms| > 0 && Admissible(change.atoms, parent.changeId, ids)
    ensures ImplementAtoms(change, parent, ios).Ok?
    ensures AtomIds(ImplementAtoms(change, parent, ios).value.atoms) == ids
  {
    var atoms := Built(parent, ids);
    ios := IOs(parent, atoms);
    IOsYield(change, parent, atoms);
    assert atoms[0..] == atoms && Before(parent, atoms, 0) == parent;
  }

  // ---- identities that repeat ---------------------------------------------------------------------------

  function MaxLength(planned: seq<AtomicPlan>, parentId: string): (n: nat)
    ensures |parentId| <= n
    ensures forall k :: 0 <= k < |planned| && planned[k].changeId.Some? ==> |planned[k].changeId.value| <= n
  {
    if planned == [] then |parentId|
    else
      var rest := MaxLength(planned[..|planned| - 1], parentId);
      var last := planned[|planned| - 1].changeId;
      if last.Some? && |last.value| > rest then |last.value| else rest
  }

  /** Fixed identities, fresh ones for the new atoms, and `v` at the new atom `j`. */
  function Filled(planned: seq<AtomicPlan>, parentId: string, j: nat, v: string): (ids: seq<string>)
    ensures |ids| == |planned|
  {
    var n := MaxLength(planned, parentId);
    seq(|planned|, k requires 0 <= k < |planned| =>
      if planned[k].changeId.Some? then planned[k].changeId.value else if k == j then v else Long(n + 1 + k))
  }

  /** No two planned neighbours are fixed to the same identity; what fails is a repetition further apart. */
  lemma FilledAdmissible(planned: seq<AtomicPlan>, parentId: string, j: nat, v: string)
    requires !Unsatisfiable(planned, parentId)
    requires j < |planned| ==>
      && |v| <= MaxLength(planned, parentId) && FixedBelow(planned, parentId, j) != Some(v)
      && (j + 1 < |planned| ==> planned[j + 1].changeId != Some(v))
    ensures Admissible(planned, parentId, Filled(planned, parentId, j, v))
  {
    forall k: nat | k < |planned|
      ensures Filled(planned, parentId, j, v)[k] != if k == 0 then parentId else Filled(planned, parentId, j, v)[k - 1]
    {
      FilledSteps(planned, parentId, j, v, k);
    }
  }

  lemma FilledSteps(planned: seq<AtomicPlan>, parentId: string, j: nat, v: string, k: nat)
    requires k < |planned| && !Unsatisfiable(planned, parentId)
    requires j < |planned| ==>
      && |v| <= MaxLength(planned, parentId) && FixedBelow(planned, parentId, j) != Some(v)
      && (j + 1 < |planned| ==> planned[j + 1].changeId != Some(v))
    ensures var ids := Filled(planned, parentId, j, v); ids[k] != if k == 0 then parentId else ids[k - 1]
  {
    assert planned[k].changeId.None? || planned[k].changeId != FixedBelow(planned, parentId, k);
  }

  lemma RepeatShows(parentId: string, ids: seq<string>, a: nat, b: nat)
    requires a < b <= |ids| && ([parentId] + ids)[a] == ([parentId] + ids)[b]
    ensures !Distinct([parentId] + ids)
  {
    if Distinct([parentId] + ids) { DistinctAt([parentId] + ids, a, b); }
  }

  /** Two positions are fixed to one identity; position 0 is the parent, position `k` + 1 the planned atom `k`. */
  ghost predicate FixedTwice(planned: seq<AtomicPlan>, parentId: string, a: nat, b: nat) {
    && a < b <= |planned| && FixedBelow(planned, parentId, a).Some?
    && FixedBelow(planned, parentId, a) == FixedBelow(planned, parentId, b)
  }

  ghost predicate NoneFixedTwice(planned: seq<AtomicPlan>, parentId: string) {
    forall a: nat, b: nat :: !FixedTwice(planned, parentId, a, b)
  }

  /** Outside the forcing plans some admissible identities repeat one: the parent's, or that of a fixed atom. */
  lemma RepeatingIds(planned: seq<AtomicPlan>, parentId: string) returns (ids: seq<string>)
    requires |planned| > 0 && !Unsatisfiable(planned, parentId) && !ForcesDistinct(planned, parentId)
    ensures Admissible(planned, parentId, ids) && !Distinct([parentId] + ids)
  {
    if !NoneFixedTwice(planned, parentId) {
      ids := RepeatsFixed(planned, parentId);
    } else if j: nat :| 1 <= j < |planned| && planned[j].changeId.None? {
      ids := RepeatsParent(planned, parentId, j);
    } else {
      if AllFixed(planned) { FixedAreDistinct(planned, parentId); }
      ids := RepeatsLater(planned, parentId);
    }
  }

  lemma RepeatsFixed(planned: seq<AtomicPlan>, parentId: string) returns (ids: seq<string>)
    requires !Unsatisfiable(planned, parentId) && !NoneFixedTwice(planned, parentId)
    ensures Admissible(planned, parentId, ids) && !Distinct([parentId] + ids)
  {
    var a: nat, b: nat :| FixedTwice(planned, parentId, a, b);
    ids := Filled(planned, parentId, |planned|, "");
    FilledAdmissible(planned, parentId, |planned|, "");
    FilledKeeps(planned, parentId, |planned|, "", a);
    FilledKeeps(planned, parentId, |planned|, "", b);
    RepeatShows(parentId, ids, a, b);
  }

  lemma FilledKeeps(planned: seq<AtomicPlan>, parentId: string, j: nat, v: string, position: nat)
    requires position <= |planned| && FixedBelow(planned, parentId, position).Some?
    ensures ([parentId] + Filled(planned, parentId, j, v))[position] == FixedBelow(planned, parentId, position).value
  {
  }

  lemma FixedAreDistinct(planned: seq<AtomicPlan>, parentId: string)
    requires AllFixed(planned) && NoneFixedTwice(planned, parentId)
    ensures Distinct([parentId] + FixedIds(planned))
  {
    var all := [parentId] + FixedIds(planned);
    forall a, b | Pos(all, a) && Pos(all, b) && a < b ensures all[a] != all[b] {
      assert !FixedTwice(planned, parentId, a, b);
    }
  }

  /** A new atom above the first can come back with the parent's identity. */
  lemma RepeatsParent(planned: seq<AtomicPlan>, parentId: string, j: nat) returns (ids: seq<string>)
    requires 1 <= j < |planned| && planned[j].changeId.None? && !Unsatisfiable(planned, parentId)
    requires NoneFixedTwice(planned, parentId)
    ensures Admissible(planned, parentId, ids) && !Distinct([parentId] + ids)
  {
    assert !FixedTwice(planned, parentId, 0, j);
    assert j + 1 < |planned| ==> !FixedTwice(planned, parentId, 0, j + 2);
    ids := Filled(planned, parentId, j, parentId);
    FilledAdmissible(planned, parentId, j, parentId);
    RepeatShows(parentId, ids, 0, j + 1);
  }

  /** With only the first of three or more atoms new, it can come back with the identity of the third. */
  lemma RepeatsLater(planned: seq<AtomicPlan>, parentId: string) returns (ids: seq<string>)
    requires |planned| > 0 && !Unsatisfiable(planned, parentId) && !ForcesDistinct(planned, parentId)
    requires !AllFixed(planned) && forall k: nat :: 1 <= k < |planned| ==> planned[k].changeId.Some?
    requires NoneFixedTwice(planned, parentId)
    ensures Admissible(planned, parentId, ids) && !Distinct([parentId] + ids)
  {
    assert |planned| > 1 ==> !FixedTwice(planned, parentId, 0, 2);
    var v := planned[2].changeId.value;
    assert !FixedTwice(planned, parentId, 0, 3) && !FixedTwice(planned, parentId, 2, 3);
    ids := Filled(planned, parentId, 0, v);
    FilledAdmissible(planned, parentId, 0, v);
    RepeatShows(parentId, ids, 1, 3);
  }

  /** What the gate may be handed: an implementation that succeeded but does not pass its revision guards. */
  ghost predicate SlipsThrough(change: Change, parent: Revision, ios: nat -> AtomIO)
    requires |change.atoms| > 0
  {
    ImplementAtoms(change, parent, ios).Ok? && !Implements(change, parent, ImplementAtoms(change, parent, ios).value)
  }

  /**
   * The exact condition, on the plan alone: every successful implementation passes the gate's revision guards whatever
   * the adapter answers, if and only if the planned identities force distinctness or no adapter can satisfy them.
   */
  lemma AlwaysLinearExactly(change: Change, parent: Revision)
    requires |change.atoms| > 0
    ensures (forall ios: nat -> AtomIO :: !SlipsThrough(change, parent, ios)) <==>
            Unsatisfiable(change.atoms, parent.changeId) || ForcesDistinct(change.atoms, parent.changeId)
  {
    if Unsatisfiable(change.atoms, parent.changeId) || ForcesDistinct(change.atoms, parent.changeId) {
      forall ios: nat -> AtomIO ensures !SlipsThrough(change, parent, ios) {
        if Unsatisfiable(change.atoms, parent.changeId) {
          UnsatisfiableNeverSucceeds(change, parent, ios);
        } else if ImplementAtoms(change, parent, ios).Ok? {
          ForcedIsLinear(change, parent, ios);
        }
      }
    } else {
      var ids := RepeatingIds(change.atoms, parent.changeId);
      var ios := Realizable(change, parent, ids);
      GateAcceptsExactly(change, parent, ios);
      assert SlipsThrough(change, parent, ios);
    }
  }

  /** For instance: two new atoms, the second answered with the identity of the revision they start from. */
  lemma SecondAtomRepeatsTheParent(change: Change, parent: Revision) returns (ios: nat -> AtomIO)
    requires |change.atoms| == 2 && change.atoms[0].changeId.None? && change.atoms[1].changeId.None?
    ensures SlipsThrough(change, parent, ios)
    ensures AtomIds(ImplementAtoms(change, parent, ios).value.atoms) == [parent.changeId + "x", parent.changeId]
  {
    var ids := [parent.changeId + "x", parent.changeId];
    ios := Realizable(change, parent, ids);
    RepeatShows(parent.changeId, ids, 0, 2);
  }
}
