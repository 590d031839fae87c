/** flows/coding/checks.ts: the walk that decides whether an exported source tree links only inside itself. */
module ExportWalk {
  import opened Wrappers
  import opened Strings

  /** One component of a canonical path, as `realPath` and `readDirectory` answer them. */
  type Segment = s: string | s != "" && '/' !in s && s != "." && s != ".." witness "a"
  type Path = seq<Segment>

  // ---- containment -------------------------------------------------------------------------------

  function Common(a: Path, b: Path): (n: nat)
    ensures n <= |a| && n <= |b| && a[..n] == b[..n]
    ensures n < |a| && n < |b| ==> a[n] != b[n]
  {
    if a == [] || b == [] || a[0] != b[0] then 0
    else
      var n := 1 + Common(a[1..], b[1..]);
      assert a[..n] == [a[0]] + a[1..][..n - 1] && b[..n] == [b[0]] + b[1..][..n - 1];
      n
  }

  /** `path.relative(from, to)`: up from `from` to the common ancestor, then down to `to`. */
  function Relative(from: Path, to: Path): string {
    var n := Common(from, to);
    Join(seq(|from| - n, _ => "..") + to[n..], '/')
  }

  predicate StartsWith(s: string, prefix: string) {
    prefix <= s
  }

  function Contained(root: Path, candidate: Path): (r: bool)
  {
    var relative := Relative(root, candidate);
    relative != ".." && !StartsWith(relative, "../") && !StartsWith(relative, "/")
  }

  /** The three string tests on the relative path decide exactly whether the candidate is the root or below it. */
  lemma ContainedExactly(root: Path, candidate: Path)
    ensures Contained(root, candidate) <==> root <= candidate
  {
    var n := Common(root, candidate);
    var ups := seq(|root| - n, _ => "..");
    var segments: seq<string> := ups + candidate[n..];
    if n < |root| {
      assert segments[0] == "..";
      if |segments| > 1 {
        assert Join(segments, '/')[..3] == "../";
      }
    } else {
      assert root == root[..n] && segments == candidate[n..];
      if segments != [] {
        DownwardIsPlain(candidate[n..]);
      }
    }
  }

  /** A path that only goes down neither starts at the top nor names the parent first. */
  lemma DownwardIsPlain(segments: Path)
    requires segments != []
    ensures var s := Join(segments, '/'); s != ".." && !("../" <= s) && !("/" <= s)
  {
    var s, first := Join(segments, '/'), segments[0];
    assert first <= s && forall i :: 0 <= i < |first| ==> s[i] == first[i] && s[i] != '/';
    assert |s| > |first| ==> s[|first|] == '/';
    assert |first| == 2 ==> !(s[0] == '.' && s[1] == '.');
    assert s[0] != '/';
    assert |s| >= 3 ==> !(s[0] == '.' && s[1] == '.' && s[2] == '/');
  }

  // ---- the exported file system ------------------------------------------------------------------

  /**
   * What the walk can ask: the names in each readable directory, the canonical path each entry resolves to (absent when
   * a link dangles or loops), and which canonical paths are directories.
   */
  datatype FileSystem = FileSystem(
    names: map<Path, seq<Segment>>, targets: map<Path, map<Segment, Path>>, directories: set<Path>)

  function Resolve(fs: FileSystem, directory: Path, name: Segment): Option<Path> {
    if directory in fs.targets && name in fs.targets[directory] then Some(fs.targets[directory][name]) else None
  }

  /** `there` is a canonical directory some entry of `here` resolves to. */
  ghost predicate Hop(fs: FileSystem, here: Path, there: Path) {
    && here in fs.names && there in fs.directories
    && exists name :: name in fs.names[here] && Resolve(fs, here, name) == Some(there)
  }

  ghost predicate Trail(fs: FileSystem, root: Path, trail: seq<Path>) {
    && trail != [] && trail[0] == root
    && forall i :: 0 <= i < |trail| - 1 ==> Hop(fs, trail[i], trail[i + 1])
  }

  ghost predicate Reachable(fs: FileSystem, root: Path, directory: Path) {
    exists trail :: Trail(fs, root, trail) && trail[|trail| - 1] == directory
  }

  ghost predicate EntryFine(fs: FileSystem, root: Path, directory: Path, name: Segment) {
    var target := Resolve(fs, directory, name);
    target.Some? && root <= target.value
  }

  ghost predicate DirectoryFine(fs: FileSystem, root: Path, directory: Path) {
    directory in fs.names && forall name :: name in fs.names[directory] ==> EntryFine(fs, root, directory, name)
  }

  /** Every directory reachable through canonical directories can be read and holds only entries resolving inside. */
  ghost predicate SelfContained(fs: FileSystem, root: Path) {
    forall directory :: Reachable(fs, root, directory) ==> DirectoryFine(fs, root, directory)
  }

  lemma ReachableRoot(fs: FileSystem, root: Path)
    ensures Reachable(fs, root, root)
  {
    assert Trail(fs, root, [root]);
  }

  lemma ReachableHop(fs: FileSystem, root: Path, here: Path, there: Path)
    requires Reachable(fs, root, here) && Hop(fs, here, there)
    ensures Reachable(fs, root, there)
  {
    var trail :| Trail(fs, root, trail) && trail[|trail| - 1] == here;
    assert Trail(fs, root, trail + [there]);
  }

  /** A set holding the root and closed under hops holds everything reachable. */
  lemma ClosedHoldsReachable(fs: FileSystem, root: Path, closed: set<Path>, directory: Path)
    requires root in closed && Reachable(fs, root, directory)
    requires forall here, there :: here in closed && Hop(fs, here, there) ==> there in closed
    ensures directory in closed
  {
    var trail :| Trail(fs, root, trail) && trail[|trail| - 1] == directory;
    TrailStaysIn(fs, root, closed, trail, |trail| - 1);
  }

  lemma {:induction false} TrailStaysIn(fs: FileSystem, root: Path, closed: set<Path>, trail: seq<Path>, i: nat)
    requires root in closed && Trail(fs, root, trail) && i < |trail|
    requires forall here, there :: here in closed && Hop(fs, here, there) ==> there in closed
    ensures trail[i] in closed
  {
    if i > 0 {
      TrailStaysIn(fs, root, closed, trail, i - 1);
      assert Hop(fs, trail[i - 1], trail[i - 1 + 1]);
    }
  }

  // ---- the walk ----------------------------------------------------------------------------------

  datatype Verdict =
    | Accepted
    | Unreadable(directory: Path)
    | Unresolved(directory: Path, name: Segment)
    | Outside(directory: Path, name: Segment)

  /** What a refusal says is so: a reachable directory, and in it a fault of the reported kind. */
  ghost predicate Justified(fs: FileSystem, root: Path, v: Verdict) {
    match v
    case Accepted => SelfContained(fs, root)
    case Unreadable(directory) => Reachable(fs, root, directory) && directory !in fs.names
    case Unresolved(directory, name) =>
      Reachable(fs, root, directory) && directory in fs.names && name in fs.names[directory]
      && Resolve(fs, directory, name).None?
    case Outside(directory, name) =>
      Reachable(fs, root, directory) && directory in fs.names && name in fs.names[directory]
      && Resolve(fs, directory, name).Some? && !(root <= Resolve(fs, directory, name).value)
  }

  /** Directories already read are fine, and every hop from them is read already or waiting. */
  ghost predicate Explored(fs: FileSystem, root: Path, visited: set<Path>, pending: seq<Path>) {
    forall directory :: directory in visited ==>
      DirectoryFine(fs, root, directory) && HopsKnown(fs, directory, visited, pending)
  }

  ghost predicate HopsKnown(fs: FileSystem, directory: Path, visited: set<Path>, pending: seq<Path>) {
    forall there :: Hop(fs, directory, there) ==> there in visited || there in pending
  }

  ghost predicate AllReachable(fs: FileSystem, root: Path, pending: seq<Path>) {
    forall directory :: directory in pending ==> Reachable(fs, root, directory)
  }

  /** The entries of one directory: the first fault, or the directories among the targets in listing order. */
  method ReadEntries(fs: FileSystem, root: Path, directory: Path) returns (v: Verdict, found: seq<Path>)
    requires Reachable(fs, root, directory) && directory in fs.names
    ensures v.Accepted? ==> DirectoryFine(fs, root, directory)
    ensures v.Accepted? ==> forall there :: there in found <==> Hop(fs, directory, there)
    ensures !v.Accepted? ==> Justified(fs, root, v)
  {
    var names := fs.names[directory];
    v, found := Accepted, [];
    for i := 0 to |names|
      invariant forall name :: name in names[..i] ==> EntryFine(fs, root, directory, name)
      invariant forall there :: there in found ==> Hop(fs, directory, there)
      invariant forall name :: name in names[..i] && Resolve(fs, directory, name).value in fs.directories ==>
                  Resolve(fs, directory, name).value in found
    {
      var entry := Resolve(fs, directory, names[i]);
      if entry.None? { return Unresolved(directory, names[i]), []; }
      ContainedExactly(root, entry.value);
      if !Contained(root, entry.value) { return Outside(directory, names[i]), []; }
      if entry.value in fs.directories { found := found + [entry.value]; }
      PrefixSnoc(names, i);
    }
    assert names[..|names|] == names;
  }

  /**
   * `pending` is a stack, `visited` a set of canonical directories. The walk ends on every finite link graph, cycles
   * included, and accepts exactly the self-contained trees; a refusal names a fault that is really there.
   */
  method Walk(fs: FileSystem, root: Path) returns (v: Verdict)
    ensures v.Accepted? <==> SelfContained(fs, root)
    ensures Justified(fs, root, v)
  {
    var pending, visited := [root], {};
    ReachableRoot(fs, root);
    while pending != []
      invariant visited <= fs.names.Keys
      invariant root in visited || root in pending
      invariant AllReachable(fs, root, pending)
      invariant Explored(fs, root, visited, pending)
      decreases |fs.names.Keys - visited|, |pending|
    {
      var directory := pending[|pending| - 1];
      var rest := pending[..|pending| - 1];
      assert pending == rest + [directory];
      assert Reachable(fs, root, directory);
      if directory in visited {
        pending := rest;
        continue;
      }
      if directory !in fs.names {
        v := Unreadable(directory);
        FaultRefutes(fs, root, v);
        return;
      }
      var found;
      v, found := ReadEntries(fs, root, directory);
      if !v.Accepted? {
        FaultRefutes(fs, root, v);
        return;
      }
      Advance(fs, root, visited, rest, directory, found);
      SubsetSize(fs.names.Keys - (visited + {directory}), fs.names.Keys - visited - {directory});
      visited, pending := visited + {directory}, rest + found;
    }
    v := Accepted;
    forall directory | Reachable(fs, root, directory) ensures DirectoryFine(fs, root, directory) {
      ClosedHoldsReachable(fs, root, visited, directory);
    }
  }

  lemma FaultRefutes(fs: FileSystem, root: Path, v: Verdict)
    requires !v.Accepted? && Justified(fs, root, v)
    ensures !SelfContained(fs, root)
  {
    assert !DirectoryFine(fs, root, v.directory) by {
      if v.Unresolved? || v.Outside? { assert !EntryFine(fs, root, v.directory, v.name); }
    }
  }

  lemma Advance(
    fs: FileSystem, root: Path, visited: set<Path>, rest: seq<Path>, directory: Path, found: seq<Path>)
    requires AllReachable(fs, root, rest + [directory]) && Explored(fs, root, visited, rest + [directory])
    requires DirectoryFine(fs, root, directory) && forall there :: there in found <==> Hop(fs, directory, there)
    ensures AllReachable(fs, root, rest + found) && Explored(fs, root, visited + {directory}, rest + found)
  {
    forall there | there in found ensures Reachable(fs, root, there) {
      ReachableHop(fs, root, directory, there);
    }
    forall here | here in visited ensures HopsKnown(fs, here, visited + {directory}, rest + found) {
      assert HopsKnown(fs, here, visited, rest + [directory]);
    }
  }

  // ---- what acceptance is for --------------------------------------------------------------------

  /** Opening a chain of listed names from the root, resolving each entry before the next. */
  function Open(fs: FileSystem, root: Path, names: seq<Segment>): Option<Path> {
    if names == [] then Some(root)
    else
      var parent := Open(fs, root, names[..|names| - 1]);
      if parent.None? || parent.value !in fs.names || names[|names| - 1] !in fs.names[parent.value] then None
      else if parent.value != root && parent.value !in fs.directories then None
      else Resolve(fs, parent.value, names[|names| - 1])
  }

  /** In an accepted export no chain of names, through links or not, opens anything outside the immutable tree. */
  lemma {:induction false} AcceptedNeverLeaves(fs: FileSystem, root: Path, names: seq<Segment>)
    requires SelfContained(fs, root)
    ensures var place := Open(fs, root, names);
      place.Some? ==>
        root <= place.value && (place.value in fs.directories || names == [] ==> Reachable(fs, root, place.value))
  {
    if names == [] {
      ReachableRoot(fs, root);
    } else {
      var init, last := names[..|names| - 1], names[|names| - 1];
      AcceptedNeverLeaves(fs, root, init);
      ReachableRoot(fs, root);
      var place := Open(fs, root, names);
      if place.Some? {
        var parent := Open(fs, root, init).value;
        assert Reachable(fs, root, parent);
        assert EntryFine(fs, root, parent, last);
        if place.value in fs.directories {
          assert Hop(fs, parent, place.value);
          ReachableHop(fs, root, parent, place.value);
        }
      }
    }
  }

  /** Conversely every reachable directory is opened by some chain of names, so a refusal is about a place a check could open. */
  lemma {:induction false} ReachableIsOpened(fs: FileSystem, root: Path, trail: seq<Path>) returns (names: seq<Segment>)
    requires Trail(fs, root, trail)
    ensures Open(fs, root, names) == Some(trail[|trail| - 1])
  {
    if |trail| == 1 {
      return [];
    }
    var n := |trail| - 2;
    assert Hop(fs, trail[n], trail[n + 1]);
    assert Trail(fs, root, trail[..n + 1]);
    var init := ReachableIsOpened(fs, root, trail[..n + 1]);
    var name :| name in fs.names[trail[n]] && Resolve(fs, trail[n], name) == Some(trail[n + 1]);
    names := init + [name];
    assert names[..|names| - 1] == init;
    if n > 0 { assert Hop(fs, trail[n - 1], trail[n - 1 + 1]); }
  }
}
