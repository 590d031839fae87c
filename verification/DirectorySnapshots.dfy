/**
 * examples/src/21-cache-and-compensation.ts, `directoryJj`: snapshots and failure-atomic restores of a directory, under
 * any pattern of failing copies, renames and removals.
 */
module DirectorySnapshots {
  import opened Wrappers

  /** A directory's contents: relative path to bytes. */
  type Tree = map<string, string>

  datatype Entry = File | Directory(tree: Tree)

  /** A `.restore-` directory beside the workspace. */
  datatype Temporary = Temporary(staged: Option<Tree>, backup: Option<Tree>)

  /** The disk, and what one layer remembers: `taken` and the two logs. */
  datatype State = State(
    workspace: Option<Tree>,
    snapshots: map<string, Entry>,
    temporaries: map<string, Temporary>,
    taken: map<string, string>,
    snapshotLog: seq<string>,
    restoreLog: seq<string>)

  /**
   * What the file system does to one snapshot: whether the parent and the staging directory can be made, the partial
   * tree a failing copy leaves, whether the publishing rename works, and what a failing removal leaves behind.
   */
  datatype SnapshotFaults = SnapshotFaults(
    parentMade: bool, staging: Option<string>, partial: Option<Tree>, published: bool, remains: Option<Tree>)

  datatype RestoreFaults = RestoreFaults(
    temporary: Option<string>, partial: Option<Tree>, swapOut: bool, swapIn: bool, rollBack: bool,
    remains: Option<Temporary>)

  /** Published names and staging names differ in their first character, so neither can pass for the other. */
  function ChangeId(uuid: string): string { "snapshot-" + uuid }
  function StagingName(suffix: string): string { ".snapshot-" + suffix }

  lemma NamesDiffer(uuid: string, suffix: string)
    ensures ChangeId(uuid) != StagingName(suffix)
  {
    assert ChangeId(uuid)[0] == 's' && StagingName(suffix)[0] == '.';
  }

  // ---- what an operation comes to ----------------------------------------------------------------

  /** `mkdtemp` never answers with a name that is in use. */
  predicate Staged(s: State, f: SnapshotFaults) {
    f.parentMade && f.staging.Some? && StagingName(f.staging.value) !in s.snapshots
  }

  predicate SnapshotSucceeds(s: State, uuid: string, f: SnapshotFaults) {
    Staged(s, f) && s.workspace.Some? && f.partial.None? && ChangeId(uuid) !in s.snapshots && f.published
  }

  /** A success adds the workspace under its ID; a failure adds at most the remains of its own staging directory. */
  function AfterSnapshot(s: State, uuid: string, description: string, f: SnapshotFaults): State {
    if SnapshotSucceeds(s, uuid, f) then
      s.(snapshots := s.snapshots[ChangeId(uuid) := Directory(s.workspace.value)],
         taken := s.taken[ChangeId(uuid) := description],
         snapshotLog := s.snapshotLog + [description])
    else if Staged(s, f) && f.remains.Some? then
      s.(snapshots := s.snapshots[StagingName(f.staging.value) := Directory(f.remains.value)])
    else s
  }

  /** How a restore ends: never begun, workspace as it was, workspace replaced, or the original stranded in its backup. */
  datatype Ending = Unbegun | Undone | Replaced | Stranded

  function EndingOf(s: State, changeId: string, f: RestoreFaults): Ending {
    if changeId !in s.snapshots || !s.snapshots[changeId].Directory? then Unbegun
    else if f.temporary.None? || f.temporary.value in s.temporaries then Unbegun
    else if f.partial.Some? || (s.workspace.Some? && !f.swapOut) then Undone
    else if f.swapIn then Replaced
    else if s.workspace.Some? && !f.rollBack then Stranded
    else Undone
  }

  function Cleaned(temporaries: map<string, Temporary>, name: string, remains: Option<Temporary>):
    map<string, Temporary>
  {
    if remains.None? then temporaries - {name} else temporaries[name := remains.value]
  }

  function Known(s: State, changeId: string): string {
    if changeId in s.taken then s.taken[changeId] else changeId
  }

  function AfterRestore(s: State, changeId: string, f: RestoreFaults): State {
    match EndingOf(s, changeId, f)
    case Unbegun => s
    case Undone => s.(temporaries := Cleaned(s.temporaries, f.temporary.value, f.remains))
    case Replaced =>
      s.(workspace := Some(s.snapshots[changeId].tree), restoreLog := s.restoreLog + [Known(s, changeId)],
         temporaries := Cleaned(s.temporaries, f.temporary.value, f.remains))
    case Stranded =>
      s.(workspace := None,
         temporaries := s.temporaries[
           f.temporary.value := Temporary(Some(s.snapshots[changeId].tree), s.workspace)])
  }

  // ---- the object --------------------------------------------------------------------------------

  class DirectoryJj {
    var workspace: Option<Tree>
    var snapshots: map<string, Entry>
    var temporaries: map<string, Temporary>
    var taken: map<string, string>
    var snapshotLog: seq<string>
    var restoreLog: seq<string>

    ghost function View(): State
      reads this
    {
      State(workspace, snapshots, temporaries, taken, snapshotLog, restoreLog)
    }

    /** A new layer over an existing disk: it remembers nothing, its logs are the caller's. */
    constructor (disk: State)
      ensures View() == disk.(taken := map[])
    {
      workspace, snapshots, temporaries := disk.workspace, disk.snapshots, disk.temporaries;
      taken, snapshotLog, restoreLog := map[], disk.snapshotLog, disk.restoreLog;
    }

    method Snapshot(uuid: string, description: string, f: SnapshotFaults) returns (id: Option<string>)
      modifies this
      ensures View() == AfterSnapshot(old(View()), uuid, description, f)
      ensures id == if SnapshotSucceeds(old(View()), uuid, f) then Some(ChangeId(uuid)) else None
    {
      var changeId := ChangeId(uuid);
      if !f.parentMade || f.staging.None? || StagingName(f.staging.value) in snapshots {
        return None;
      }
      NamesDiffer(uuid, f.staging.value);
      var name := StagingName(f.staging.value);
      var renamed := Publish(changeId, name, f);
      if !renamed {
        if f.remains.Some? {
          snapshots := snapshots[name := Directory(f.remains.value)];
        } else {
          snapshots := snapshots - {name};
        }
        assert snapshots - {name} == old(snapshots);
        return None;
      }
      taken := taken[changeId := description];
      snapshotLog := snapshotLog + [description];
      id := Some(changeId);
    }

    /** The `try` block: copy into staging, refuse a used ID, rename into place. On a failure only staging differs. */
    method Publish(changeId: string, name: string, f: SnapshotFaults) returns (renamed: bool)
      modifies this`snapshots
      requires name !in snapshots && changeId != name
      ensures renamed <==>
              workspace.Some? && f.partial.None? && changeId !in old(snapshots) && f.published
      ensures renamed ==> snapshots == old(snapshots)[changeId := Directory(workspace.value)]
      ensures !renamed ==> name in snapshots && snapshots - {name} == old(snapshots)
    {
      snapshots := snapshots[name := Directory(map[])];
      assert snapshots - {name} == old(snapshots);
      if workspace.None? { return false; }
      if f.partial.Some? {
        snapshots := snapshots[name := Directory(f.partial.value)];
        return false;
      }
      snapshots := snapshots[name := Directory(workspace.value)];
      assert snapshots - {name} == old(snapshots);
      if changeId in snapshots || !f.published { return false; }
      snapshots := (snapshots - {name})[changeId := snapshots[name]];
      renamed := true;
    }

    method Restore(changeId: string, f: RestoreFaults) returns (ok: bool)
      modifies this
      ensures View() == AfterRestore(old(View()), changeId, f)
      ensures ok <==> EndingOf(old(View()), changeId, f).Replaced?
    {
      if changeId !in snapshots || !snapshots[changeId].Directory? { return false; }
      if f.temporary.None? || f.temporary.value in temporaries { return false; }
      var source, name := snapshots[changeId].tree, f.temporary.value;
      var keepBackup;
      ok, keepBackup := Swap(source, name, f);
      if ok {
        restoreLog := restoreLog + [if changeId in taken then taken[changeId] else changeId];
      }
      if !keepBackup {
        if f.remains.Some? {
          temporaries := temporaries[name := f.remains.value];
        } else {
          temporaries := temporaries - {name};
        }
      }
    }

    /** The `try` block: stage a copy, move the workspace aside, move the copy in, or move the workspace back. */
    method Swap(source: Tree, name: string, f: RestoreFaults) returns (ok: bool, keepBackup: bool)
      modifies this`workspace, this`temporaries
      requires name !in temporaries
      ensures ok <==> f.partial.None? && (old(workspace).Some? ==> f.swapOut) && f.swapIn
      ensures keepBackup <==>
              f.partial.None? && old(workspace).Some? && f.swapOut && !f.swapIn && !f.rollBack
      ensures workspace == if ok then Some(source) else if keepBackup then None else old(workspace)
      ensures name in temporaries && temporaries - {name} == old(temporaries)
      ensures keepBackup ==> temporaries[name] == Temporary(Some(source), old(workspace))
    {
      ok, keepBackup := false, false;
      var held := Temporary(None, None);
      if f.partial.Some? {
        held := held.(staged := f.partial);
      } else {
        held := held.(staged := Some(source));
        if workspace.None? || f.swapOut {
          if workspace.Some? {
            workspace, held := None, held.(backup := workspace);
            keepBackup := true;
          }
          if f.swapIn {
            workspace, held := held.staged, held.(staged := None);
            ok, keepBackup := true, false;
          } else if keepBackup && f.rollBack {
            workspace, held := held.backup, held.(backup := None);
            keepBackup := false;
          }
        }
      }
      temporaries := temporaries[name := held];
      assert temporaries - {name} == old(temporaries);
    }
  }

  // ---- one restore -------------------------------------------------------------------------------

  /**
   * After a restore the workspace is the snapshot (exactly when it reported success) or the original, or else it is
   * missing and the original is intact in the retained backup. In no case is any other backup or any snapshot touched.
   */
  lemma RestoreIsAtomic(s: State, changeId: string, f: RestoreFaults)
    ensures var t := AfterRestore(s, changeId, f); var end := EndingOf(s, changeId, f);
      && t.snapshots == s.snapshots && t.taken == s.taken
      && (end.Replaced? ==> changeId in s.snapshots && s.snapshots[changeId].Directory?
                            && t.workspace == Some(s.snapshots[changeId].tree))
      && (end.Unbegun? || end.Undone? ==> t.workspace == s.workspace && t.restoreLog == s.restoreLog)
      && (end.Stranded? <==> t.workspace.None? && s.workspace.Some?)
      && (end.Stranded? ==> Backed(t, f.temporary, s.workspace))
      && (forall name | name in s.temporaries :: name in t.temporaries && t.temporaries[name] == s.temporaries[name])
  {
  }

  /** Exactly when each operation succeeds, and when it strands the original. */
  lemma OperationsExactly(s: State, uuid: string, g: SnapshotFaults, changeId: string, f: RestoreFaults)
    ensures SnapshotSucceeds(s, uuid, g) <==>
      && g.parentMade && g.staging.Some? && StagingName(g.staging.value) !in s.snapshots && s.workspace.Some?
      && g.partial.None? && ChangeId(uuid) !in s.snapshots && g.published
    ensures EndingOf(s, changeId, f).Replaced? <==>
      && changeId in s.snapshots && s.snapshots[changeId].Directory? && f.temporary.Some?
      && f.temporary.value !in s.temporaries && f.partial.None? && (s.workspace.Some? ==> f.swapOut) && f.swapIn
    ensures EndingOf(s, changeId, f).Stranded? <==>
      && changeId in s.snapshots && s.snapshots[changeId].Directory? && f.temporary.Some?
      && f.temporary.value !in s.temporaries && f.partial.None? && s.workspace.Some? && f.swapOut && !f.swapIn && !f.rollBack
    ensures EndingOf(s, changeId, f).Unbegun? <==>
      || changeId !in s.snapshots || !s.snapshots[changeId].Directory? || f.temporary.None?
      || f.temporary.value in s.temporaries
  {
  }

  predicate Backed(s: State, name: Option<string>, original: Option<Tree>) {
    name.Some? && name.value in s.temporaries && s.temporaries[name.value].backup == original
  }

  // ---- histories ---------------------------------------------------------------------------------

  /** Everything that happens to the disk: both operations, the workspace's writer, and a new layer taking over. */
  datatype Event =
    | Snapshot(uuid: string, description: string, snapshotFaults: SnapshotFaults)
    | Restore(changeId: string, restoreFaults: RestoreFaults)
    | Write(contents: Option<Tree>)
    | Reopen

  function Step(s: State, e: Event): State {
    match e
    case Snapshot(uuid, description, f) => AfterSnapshot(s, uuid, description, f)
    case Restore(changeId, f) => AfterRestore(s, changeId, f)
    case Write(contents) => s.(workspace := contents)
    case Reopen => s.(taken := map[])
  }

  function After(s: State, history: seq<Event>): State {
    if history == [] then s else Step(After(s, history[..|history| - 1]), history[|history| - 1])
  }

  /** Entries of the snapshots directory and retained backups outlive every event, whoever made them. */
  ghost predicate Preserves(s: State, t: State) {
    && (forall name | name in s.snapshots :: name in t.snapshots && t.snapshots[name] == s.snapshots[name])
    && (forall name | name in s.temporaries :: name in t.temporaries && t.temporaries[name] == s.temporaries[name])
  }

  lemma StepPreserves(s: State, e: Event)
    ensures Preserves(s, Step(s, e))
  {
  }

  /** Published snapshots never change and retained backups are never deleted, over any history. */
  lemma {:induction false} NothingIsLost(s: State, history: seq<Event>)
    ensures Preserves(s, After(s, history))
  {
    if history != [] {
      NothingIsLost(s, history[..|history| - 1]);
      StepPreserves(After(s, history[..|history| - 1]), history[|history| - 1]);
    }
  }

  lemma {:induction false} AfterSplits(s: State, first: seq<Event>, second: seq<Event>)
    ensures After(s, first + second) == After(After(s, first), second)
  {
    if second == [] {
      assert first + second == first;
    } else {
      var init := second[..|second| - 1];
      assert (first + second)[..|first + second| - 1] == first + init;
      AfterSplits(s, first, init);
    }
  }

  /** What the layer in charge remembers of a published ID is what it was told, until a new layer takes over. */
  lemma {:induction false} LabelsFollowTheLayer(s: State, history: seq<Event>, changeId: string)
    requires changeId in s.snapshots
    ensures changeId in After(s, history).taken <==> changeId in s.taken && Reopen !in history
    ensures changeId in After(s, history).taken ==> After(s, history).taken[changeId] == s.taken[changeId]
  {
    if history != [] {
      var init, e := history[..|history| - 1], history[|history| - 1];
      assert history == init + [e];
      LabelsFollowTheLayer(s, init, changeId);
      NothingIsLost(s, init);
      LabelStep(After(s, init), e, changeId);
      assert Reopen in history <==> Reopen in init || e == Reopen;
    }
  }

  lemma LabelStep(s: State, e: Event, changeId: string)
    requires changeId in s.snapshots
    ensures changeId in Step(s, e).taken <==> changeId in s.taken && !e.Reopen?
    ensures changeId in Step(s, e).taken ==> Step(s, e).taken[changeId] == s.taken[changeId]
  {
  }

  /**
   * The round trip. Whatever happened before, between and during, a restore that succeeds gives exactly the tree the
   * workspace had when that ID was captured, and logs the captured description, or the bare ID to a later layer.
   */
  lemma {:induction false} RestoreGivesTheCapturedTree(
    start: State, before: seq<Event>, uuid: string, description: string, f: SnapshotFaults,
    between: seq<Event>, g: RestoreFaults)
    requires var s := After(start, before); SnapshotSucceeds(s, uuid, f)
    requires EndingOf(
               After(start, before + [Snapshot(uuid, description, f)] + between), ChangeId(uuid), g).Replaced?
    ensures var s := After(start, before);
      var end := After(start, before + [Snapshot(uuid, description, f)] + between + [Restore(ChangeId(uuid), g)]);
      && end.workspace == s.workspace
      && end.restoreLog != []
      && end.restoreLog[|end.restoreLog| - 1] == if Reopen in between then ChangeId(uuid) else description
  {
    var s, taking, giving := After(start, before), Snapshot(uuid, description, f), Restore(ChangeId(uuid), g);
    var captured := Step(s, taking);
    AppendOne(start, before, taking);
    AfterSplits(start, before + [taking], between);
    AppendOne(start, before + [taking] + between, giving);
    NothingIsLost(captured, between);
    LabelsFollowTheLayer(captured, between, ChangeId(uuid));
  }

  lemma AppendOne(s: State, history: seq<Event>, e: Event)
    ensures After(s, history + [e]) == Step(After(s, history), e)
  {
    assert (history + [e])[..|history|] == history;
  }

  /** A stranded original stays recoverable: however the history continues, its backup is still intact. */
  lemma StrandedOriginalSurvives(
    start: State, before: seq<Event>, changeId: string, f: RestoreFaults, later: seq<Event>)
    requires EndingOf(After(start, before), changeId, f).Stranded?
    ensures Backed(After(start, before + [Restore(changeId, f)] + later), f.temporary, After(start, before).workspace)
  {
    AppendOne(start, before, Restore(changeId, f));
    AfterSplits(start, before + [Restore(changeId, f)], later);
    RestoreIsAtomic(After(start, before), changeId, f);
    NothingIsLost(After(start, before + [Restore(changeId, f)]), later);
  }

  /** Every snapshot a history publishes is a workspace the history had: partial copies live only under staging names. */
  ghost predicate Honest(s: State, start: State, history: seq<Event>) {
    forall uuid: string {:trigger ChangeId(uuid)} | ChangeId(uuid) in s.snapshots && ChangeId(uuid) !in start.snapshots ::
      exists n: nat :: n < |history| && Captured(s, start, history, uuid, n)
  }

  ghost predicate Captured(s: State, start: State, history: seq<Event>, uuid: string, n: nat) {
    && n <= |history| && ChangeId(uuid) in s.snapshots
    && var w := After(start, history[..n]).workspace; w.Some? && s.snapshots[ChangeId(uuid)] == Directory(w.value)
  }

  lemma {:induction false} PublishedAreWhole(start: State, history: seq<Event>)
    ensures Honest(After(start, history), start, history)
  {
    if history == [] { return; }
    var k := |history| - 1;
    var init, e, s, t := history[..k], history[k], After(start, history[..k]), After(start, history);
    PublishedAreWhole(start, init);
    StepPreserves(s, e);
    forall uuid: string {:trigger ChangeId(uuid)} | ChangeId(uuid) in t.snapshots && ChangeId(uuid) !in start.snapshots
      ensures exists n: nat :: n < |history| && Captured(t, start, history, uuid, n)
    {
      if ChangeId(uuid) in s.snapshots {
        var n: nat :| n < |init| && Captured(s, start, init, uuid, n);
        assert init[..n] == history[..n];
        assert Captured(t, start, history, uuid, n);
      } else {
        PublishStep(s, e, uuid);
        assert Captured(t, start, history, uuid, k);
      }
    }
  }

  lemma PublishStep(s: State, e: Event, uuid: string)
    requires ChangeId(uuid) !in s.snapshots && ChangeId(uuid) in Step(s, e).snapshots
    ensures s.workspace.Some? && Step(s, e).snapshots[ChangeId(uuid)] == Directory(s.workspace.value)
  {
    if e.Snapshot? && e.snapshotFaults.staging.Some? {
      NamesDiffer(uuid, e.snapshotFaults.staging.value);
    }
  }
}
