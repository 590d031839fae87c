/** flows/coding/planning.ts: binding a drafted plan to measured native history, checks and paths. */
module CodingPlanning {
  import opened Wrappers
  import opened CodingSchema
  import opened CodingWorkflow
  import opened Strings

  datatype DraftChange = DraftChange(id: string, title: string, intent: string, atoms: seq<AtomicPlan>, checks: seq<string>)
  datatype Draft = Draft(baseChangeId: string, changes: seq<DraftChange>)
  datatype Context = Context(
    head: Revision, history: seq<Revision>, memoryRevision: string,
    implementation: string, implementationDigest: string, checks: seq<Check>)

  // ---- predicted paths ---------------------------------------------------------------------------

  predicate Metadata(part: string) {
    || (|part| == 4 && part[0] == '.' && part[1] in "gG" && part[2] in "iI" && part[3] in "tT")
    || (|part| == 3 && part[0] == '.' && part[1] in "jJ" && part[2] in "jJ")
  }

  predicate FilePath(value: string) {
    && 0 < |value| <= 4096
    && '\\' !in value && '\0' !in value
    && forall k :: 0 <= k < |Split(value, '/')| ==>
         var part := Split(value, '/')[k]; part != "" && part != "." && part != ".." && !Metadata(part)
  }

  function Lower(c: char): char {
    if 'A' <= c <= 'Z' then c - 'A' + 'a' else c
  }

  function LowerText(text: string): (r: string)
    ensures |r| == |text| && forall i :: 0 <= i < |r| ==> r[i] == Lower(text[i])
  {
    seq(|text|, i requires 0 <= i < |text| => Lower(text[i]))
  }

  lemma MetadataExactly(part: string)
    ensures Metadata(part) <==> LowerText(part) == ".git" || LowerText(part) == ".jj"
  {
    var r := LowerText(part);
    assert r == ".git" <==> |r| == 4 && r[0] == '.' && r[1] == 'g' && r[2] == 'i' && r[3] == 't';
    assert r == ".jj" <==> |r| == 3 && r[0] == '.' && r[1] == 'j' && r[2] == 'j';
  }

  /** A name a normalized path may contain. */
  predicate PathName(part: string) {
    && part != "" && part != "." && part != ".." && LowerText(part) != ".git" && LowerText(part) != ".jj"
    && '/' !in part && '\\' !in part && '\0' !in part
  }

  /** The accepted paths are exactly the names joined by slashes, at most 4096 characters of them. */
  lemma FilePathExactly(value: string)
    ensures FilePath(value) <==>
      && |value| <= 4096
      && exists names: seq<string> :: names != [] && value == Join(names, '/') && forall k :: 0 <= k < |names| ==> PathName(names[k])
  {
    if FilePath(value) {
      PathSplits(value);
    }
    if |value| <= 4096 {
      forall names: seq<string> | names != [] && value == Join(names, '/') && forall k :: 0 <= k < |names| ==> PathName(names[k])
        ensures FilePath(value)
      {
        PathJoins(names);
      }
    }
  }

  lemma PathSplits(value: string)
    requires FilePath(value)
    ensures value == Join(Split(value, '/'), '/') && forall k :: 0 <= k < |Split(value, '/')| ==> PathName(Split(value, '/')[k])
  {
    SplitJoins(value, '/');
    var parts := Split(value, '/');
    forall k | 0 <= k < |parts| ensures PathName(parts[k]) {
      MetadataExactly(parts[k]);
      PartOf(parts, '/', '\\', k);
      PartOf(parts, '/', '\0', k);
    }
  }

  lemma PathJoins(names: seq<string>)
    requires names != [] && |Join(names, '/')| <= 4096 && forall k :: 0 <= k < |names| ==> PathName(names[k])
    ensures FilePath(Join(names, '/'))
  {
    JoinSplits(names, '/');
    JoinAvoids(names, '/', '\\');
    JoinAvoids(names, '/', '\0');
    forall k | 0 <= k < |names| ensures !Metadata(names[k]) { MetadataExactly(names[k]); }
    assert Join(names, '/') != "" by { SplitPlain("", '/'); assert names[0] != ""; }
  }

  predicate AtomPathsOk(atom: AtomicPlan) {
    (forall f :: f in atom.readFiles ==> FilePath(f)) && (forall f :: f in atom.writeFiles ==> FilePath(f))
  }

  // ---- what an acceptable draft is ---------------------------------------------------------------

  /** A unique, resolved, single-parent chain, oldest first; its first parent may lie outside the window. */
  ghost predicate LinearHistory(history: seq<Revision>) {
    && Distinct(AtomIds(history))
    && forall i {:trigger history[i].parentCommitIds} :: 0 <= i < |history| ==> ChainLink(history, i)
  }

  predicate ChainLink(history: seq<Revision>, i: nat)
    requires i < |history|
  {
    |history[i].parentCommitIds| == 1 && (i > 0 ==> history[i].parentCommitIds[0] == history[i - 1].commitId)
  }

  function FlatDraft(changes: seq<DraftChange>): seq<AtomicPlan> {
    if changes == [] then [] else FlatDraft(changes[..|changes| - 1]) + changes[|changes| - 1].atoms
  }

  /** The atoms are exactly these existing changes, in order, followed only by new atoms. */
  ghost predicate Retains(atoms: seq<AtomicPlan>, existing: seq<string>) {
    && |existing| <= |atoms|
    && (forall k :: 0 <= k < |existing| ==> atoms[k].changeId == Some(existing[k]))
    && (forall k :: |existing| <= k < |atoms| ==> atoms[k].changeId.None?)
  }

  predicate Offered(checks: seq<Check>, id: string) {
    exists c :: c in checks && c.id == id
  }

  function CheckFor(checks: seq<Check>, id: string): (c: Check)
    requires Offered(checks, id)
    ensures c in checks && c.id == id
  {
    if checks[0].id == id then checks[0] else CheckFor(checks[1..], id)
  }

  /** Normalized paths and offered checks only. */
  ghost predicate PartsOk(context: Context, change: DraftChange) {
    && (forall k :: 0 <= k < |change.atoms| ==> AtomPathsOk(change.atoms[k]))
    && (forall k :: 0 <= k < |change.checks| ==> Offered(context.checks, change.checks[k]))
  }

  ghost predicate ChangeOk(context: Context, change: DraftChange) {
    && PartsOk(context, change)
    && Distinct(change.checks)
    && SelectsTier(context, change, Fast) && SelectsTier(context, change, Slow)
  }

  ghost predicate SelectsTier(context: Context, change: DraftChange, tier: Tier) {
    exists c :: c in context.checks && c.id in change.checks && c.required && c.tier == tier
  }

  function DraftIds(changes: seq<DraftChange>): (ids: seq<string>)
    ensures |ids| == |changes| && forall i :: 0 <= i < |ids| ==> ids[i] == changes[i].id
  {
    seq(|changes|, i requires 0 <= i < |changes| => changes[i].id)
  }

  /** The first position of the drafted base in the history. */
  ghost predicate BaseAt(context: Context, draft: Draft, b: nat) {
    b < |context.history| && context.history[b].changeId == draft.baseChangeId
  }

  /** A unique single-parent chain that ends at the captured head, and configured checks with distinct IDs. */
  ghost predicate Measured(context: Context) {
    && LinearHistory(context.history) && context.history != []
    && SameCode(context.history[|context.history| - 1], context.head) && Distinct(CheckIds(context.checks))
  }

  ghost predicate Acceptable(context: Context, draft: Draft) {
    Measured(context) && Distinct(DraftIds(draft.changes)) && AllChangesOk(context, draft.changes) && Fits(context, draft)
  }

  ghost predicate AllChangesOk(context: Context, changes: seq<DraftChange>) {
    forall i :: 0 <= i < |changes| ==> ChangeOk(context, changes[i])
  }

  /** The draft's atoms are the native suffix after its base, followed only by new atoms. */
  ghost predicate Fits(context: Context, draft: Draft) {
    exists b: nat :: BaseAt(context, draft, b) && Retains(FlatDraft(draft.changes), AtomIds(context.history[b + 1..]))
  }

  // ---- binding -----------------------------------------------------------------------------------

  function BoundChecks(checks: seq<Check>, ids: seq<string>): (r: seq<Check>)
    requires forall k :: 0 <= k < |ids| ==> Offered(checks, ids[k])
    ensures |r| == |ids| && forall k :: 0 <= k < |r| ==> r[k] == CheckFor(checks, ids[k])
  {
    seq(|ids|, k requires 0 <= k < |ids| => CheckFor(checks, ids[k]))
  }

  function BoundChange(context: Context, change: DraftChange): Change
    requires forall k :: 0 <= k < |change.checks| ==> Offered(context.checks, change.checks[k])
  {
    Change(change.id, change.title, change.intent, context.implementation, context.implementationDigest,
           change.atoms, BoundChecks(context.checks, change.checks))
  }

  /** The plan is the draft with the context's facts filled in. */
  ghost predicate Binds(prompt: string, context: Context, draft: Draft, plan: Plan) {
    && plan.prompt == prompt && plan.memoryRevision == context.memoryRevision && plan.observedHead == Some(context.head)
    && plan.base in context.history && plan.base.changeId == draft.baseChangeId
    && |plan.changes| == |draft.changes|
    && forall i :: 0 <= i < |plan.changes| ==> BoundTo(context, draft.changes[i], plan.changes[i])
  }

  /** The drafted Change, its delegate from the context, and for each selected ID, in order, the configured check. */
  ghost predicate BoundTo(context: Context, drafted: DraftChange, change: Change) {
    && change.id == drafted.id && change.title == drafted.title && change.intent == drafted.intent
    && change.atoms == drafted.atoms
    && change.implementation == context.implementation && change.implementationDigest == context.implementationDigest
    && |change.checks| == |drafted.checks|
    && forall k :: 0 <= k < |change.checks| ==> change.checks[k] in context.checks && change.checks[k].id == drafted.checks[k]
  }

  lemma BoundIsBoundTo(context: Context, drafts: seq<DraftChange>, changes: seq<Change>)
    requires BoundAll(context, drafts, changes)
    ensures forall i :: 0 <= i < |changes| ==> BoundTo(context, drafts[i], changes[i])
  {
  }

  ghost predicate BoundAll(context: Context, drafts: seq<DraftChange>, changes: seq<Change>) {
    && |changes| == |drafts|
    && forall i :: 0 <= i < |changes| ==>
         (forall k :: 0 <= k < |drafts[i].checks| ==> Offered(context.checks, drafts[i].checks[k]))
         && changes[i] == BoundChange(context, drafts[i])
  }

  method HistoryLinear(history: seq<Revision>) returns (ok: bool)
    ensures ok <==> LinearHistory(history)
  {
    var ids: seq<string> := [];
    for i := 0 to |history|
      invariant ids == AtomIds(history)[..i] && Distinct(ids)
      invariant forall j :: 0 <= j < i ==> ChainLink(history, j)
    {
      ghost var all := AtomIds(history);
      PrefixSnoc(all, i);
      Admit(ids, history[i].changeId);
      DistinctPrefix(all[..i + 1], all);
      if history[i].changeId in ids || !ChainLink(history, i) { return false; }
      ids := ids + [history[i].changeId];
    }
    assert AtomIds(history)[..|history|] == AtomIds(history);
    ok := true;
  }

  method BaseIndex(history: seq<Revision>, id: string) returns (b: nat)
    ensures b <= |history| && (b < |history| ==> history[b].changeId == id)
    ensures forall j :: 0 <= j < b ==> history[j].changeId != id
  {
    b := 0;
    while b < |history| && history[b].changeId != id
      invariant b <= |history| && forall j :: 0 <= j < b ==> history[j].changeId != id
    {
      b := b + 1;
    }
  }

  /** The atoms loop of one drafted Change, threading `hasNew` and `actual`. */
  method BindAtoms(ghost seen: seq<AtomicPlan>, atoms: seq<AtomicPlan>, before: seq<string>, hadNew: bool)
    returns (r: Outcome<(seq<string>, bool)>)
    requires Retains(seen, before) && (hadNew <==> |before| < |seen|)
    ensures r.Ok? ==> Retains(seen + atoms, r.value.0) && (r.value.1 <==> |r.value.0| < |seen + atoms|)
    ensures r.Ok? ==> forall k :: 0 <= k < |atoms| ==> AtomPathsOk(atoms[k])
    ensures r.Refused? && r.error == InvalidPlan(InvalidPath) ==> exists k :: 0 <= k < |atoms| && !AtomPathsOk(atoms[k])
    ensures r.Refused? ==> r.error == InvalidPlan(InvalidPath) || r.error == InvalidPlan(NewBeforeExisting)
    ensures r.Refused? && r.error == InvalidPlan(NewBeforeExisting) ==> Misplaced(seen + atoms)
  {
    var actual, hasNew := before, hadNew;
    ghost var all := seen;
    for k := 0 to |atoms|
      invariant all == seen + atoms[..k]
      invariant Retains(all, actual) && (hasNew <==> |actual| < |all|)
      invariant forall j :: 0 <= j < k ==> AtomPathsOk(atoms[j])
    {
      if !AtomPathsOk(atoms[k]) { return Refused(InvalidPlan(InvalidPath)); }
      if atoms[k].changeId.None? {
        hasNew := true;
      } else {
        if hasNew {
          assert (seen + atoms)[|actual|] == all[|actual|] && (seen + atoms)[|all|] == atoms[k];
          assert NewThenOld(seen + atoms, |actual|, |all|);
          return Refused(InvalidPlan(NewBeforeExisting));
        }
        actual := actual + [atoms[k].changeId.value];
      }
      all := all + [atoms[k]];
    }
    assert all == seen + atoms;
    r := Ok((actual, hasNew));
  }

  ghost predicate NewThenOld(atoms: seq<AtomicPlan>, a: nat, b: nat) {
    a < b < |atoms| && atoms[a].changeId.None? && atoms[b].changeId.Some?
  }

  /** A new atom precedes an existing one. */
  ghost predicate Misplaced(atoms: seq<AtomicPlan>) {
    exists a: nat, b: nat :: NewThenOld(atoms, a, b)
  }

  lemma MisplacedRetainsNothing(prefix: seq<AtomicPlan>, atoms: seq<AtomicPlan>, existing: seq<string>)
    requires Misplaced(prefix) && prefix <= atoms
    ensures !Retains(atoms, existing)
  {
    var a: nat, b: nat :| NewThenOld(prefix, a, b);
    assert atoms[a] == prefix[a] && atoms[b] == prefix[b];
  }

  lemma RetainsUnique(atoms: seq<AtomicPlan>, left: seq<string>, right: seq<string>)
    requires Retains(atoms, left) && Retains(atoms, right)
    ensures left == right
  {
    assert |left| < |atoms| ==> atoms[|left|].changeId.None?;
    assert |right| < |atoms| ==> atoms[|right|].changeId.None?;
  }

  lemma {:induction false} RetainedIds(atoms: seq<AtomicPlan>, existing: seq<string>)
    requires Retains(atoms, existing)
    ensures ExistingIds(atoms) == existing
    decreases |atoms|
  {
    if atoms != [] {
      var n := |atoms| - 1;
      if |existing| == |atoms| {
        RetainedIds(atoms[..n], existing[..n]);
        assert existing == existing[..n] + [existing[n]];
      } else {
        RetainedIds(atoms[..n], existing);
      }
    }
  }

  method ChecksOffered(checks: seq<Check>, ids: seq<string>) returns (ok: bool)
    ensures ok <==> forall k :: 0 <= k < |ids| ==> Offered(checks, ids[k])
  {
    for k := 0 to |ids|
      invariant forall j :: 0 <= j < k ==> Offered(checks, ids[j])
    {
      if !Offered(checks, ids[k]) { return false; }
    }
    ok := true;
  }

  ghost predicate Unbindable(context: Context, drafts: seq<DraftChange>) {
    || (exists i :: 0 <= i < |drafts| && !PartsOk(context, drafts[i]))
    || (exists n :: 0 <= n <= |drafts| && Misplaced(FlatDraft(drafts[..n])))
  }

  ghost predicate AllParts(context: Context, drafts: seq<DraftChange>) {
    forall i :: 0 <= i < |drafts| ==> PartsOk(context, drafts[i])
  }

  /** What the loop has after the first `n` drafted Changes. */
  ghost predicate BoundSoFar(
    context: Context, drafts: seq<DraftChange>, n: nat, changes: seq<Change>, actual: seq<string>, hasNew: bool)
  {
    && n <= |drafts| && BoundAll(context, drafts[..n], changes) && AllParts(context, drafts[..n])
    && Retains(FlatDraft(drafts[..n]), actual) && (hasNew <==> |actual| < |FlatDraft(drafts[..n])|)
  }

  method BindChanges(context: Context, drafts: seq<DraftChange>) returns (r: Outcome<(seq<Change>, seq<string>)>)
    ensures r.Ok? ==> BoundAll(context, drafts, r.value.0) && Retains(FlatDraft(drafts), r.value.1)
    ensures r.Ok? ==> AllParts(context, drafts)
    ensures r.Refused? ==> Unbindable(context, drafts)
    ensures r.Refused? ==> r.error.InvalidPlan? && r.error.plan in {InvalidPath, NewBeforeExisting, UnavailableCheck}
  {
    var changes: seq<Change>, actual: seq<string>, hasNew := [], [], false;
    for i := 0 to |drafts|
      invariant BoundSoFar(context, drafts, i, changes, actual, hasNew)
    {
      FlatSnoc(drafts, i);
      var bound := BindAtoms(FlatDraft(drafts[..i]), drafts[i].atoms, actual, hasNew);
      if bound.Refused? {
        if bound.error == InvalidPlan(InvalidPath) { BadParts(context, drafts, i); }
        return Refused(bound.error);
      }
      var offered := ChecksOffered(context.checks, drafts[i].checks);
      if !offered {
        BadParts(context, drafts, i);
        return Refused(InvalidPlan(UnavailableCheck));
      }
      BindStep(context, drafts, i, changes, actual, hasNew, bound.value.0, bound.value.1);
      actual, hasNew := bound.value.0, bound.value.1;
      changes := changes + [BoundChange(context, drafts[i])];
    }
    assert drafts[..|drafts|] == drafts;
    r := Ok((changes, actual));
  }

  lemma FlatSnoc(drafts: seq<DraftChange>, i: nat)
    requires i < |drafts|
    ensures FlatDraft(drafts[..i + 1]) == FlatDraft(drafts[..i]) + drafts[i].atoms
  {
    assert drafts[..i + 1][..i] == drafts[..i];
  }

  lemma BadParts(context: Context, drafts: seq<DraftChange>, i: nat)
    requires i < |drafts| && !PartsOk(context, drafts[i])
    ensures Unbindable(context, drafts)
  {
  }

  lemma BindStep(
    context: Context, drafts: seq<DraftChange>, i: nat, changes: seq<Change>, actual: seq<string>, hasNew: bool,
    more: seq<string>, newer: bool)
    requires i < |drafts| && BoundSoFar(context, drafts, i, changes, actual, hasNew) && PartsOk(context, drafts[i])
    requires var seen := FlatDraft(drafts[..i]) + drafts[i].atoms; Retains(seen, more) && (newer <==> |more| < |seen|)
    ensures BoundSoFar(context, drafts, i + 1, changes + [BoundChange(context, drafts[i])], more, newer)
  {
    FlatSnoc(drafts, i);
    BoundSnoc(context, drafts, changes, i);
    PrefixSnoc(drafts, i);
  }

  lemma BoundSnoc(context: Context, drafts: seq<DraftChange>, changes: seq<Change>, i: nat)
    requires i < |drafts| && BoundAll(context, drafts[..i], changes)
    requires forall k :: 0 <= k < |drafts[i].checks| ==> Offered(context.checks, drafts[i].checks[k])
    ensures BoundAll(context, drafts[..i + 1], changes + [BoundChange(context, drafts[i])])
  {
  }

  lemma {:induction false} FlatDraftPrefix(drafts: seq<DraftChange>, n: nat)
    requires n <= |drafts|
    ensures FlatDraft(drafts[..n]) <= FlatDraft(drafts)
    decreases |drafts|
  {
    if n == |drafts| {
      assert drafts[..n] == drafts;
    } else {
      FlatDraftPrefix(drafts[..|drafts| - 1], n);
      assert drafts[..|drafts| - 1][..n] == drafts[..n];
    }
  }

  lemma UnbindableIsUnacceptable(context: Context, draft: Draft)
    requires Unbindable(context, draft.changes)
    ensures !Acceptable(context, draft)
  {
    if n :| 0 <= n <= |draft.changes| && Misplaced(FlatDraft(draft.changes[..n])) {
      FlatDraftPrefix(draft.changes, n);
      forall existing ensures !Retains(FlatDraft(draft.changes), existing) {
        MisplacedRetainsNothing(FlatDraft(draft.changes[..n]), FlatDraft(draft.changes), existing);
      }
    }
  }

  lemma {:induction false} FlatSame(context: Context, drafts: seq<DraftChange>, changes: seq<Change>)
    requires BoundAll(context, drafts, changes)
    ensures FlatAtoms(changes) == FlatDraft(drafts)
    decreases |drafts|
  {
    if drafts != [] { FlatSame(context, drafts[..|drafts| - 1], changes[..|changes| - 1]); }
  }

  lemma {:induction false} CheckForOwn(checks: seq<Check>, i: nat)
    requires i < |checks| && Distinct(CheckIds(checks))
    ensures Offered(checks, checks[i].id) && CheckFor(checks, checks[i].id) == checks[i]
  {
    assert checks[i] in checks;
    var c := CheckFor(checks, checks[i].id);
    var j :| 0 <= j < |checks| && checks[j] == c;
    if i < j { DistinctAt(CheckIds(checks), i, j); }
    if j < i { DistinctAt(CheckIds(checks), j, i); }
  }

  /** A bound Change passes plan validation exactly when the draft selects distinct checks and both required tiers. */
  lemma BoundChecksValid(context: Context, change: DraftChange)
    requires Distinct(CheckIds(context.checks)) && PartsOk(context, change)
    ensures ChecksValid(BoundChange(context, change)) <==> ChangeOk(context, change)
  {
    var bound := BoundChecks(context.checks, change.checks);
    assert CheckIds(bound) == change.checks;
    SelectsExactly(context, change, Fast);
    SelectsExactly(context, change, Slow);
  }

  lemma SelectsExactly(context: Context, change: DraftChange, tier: Tier)
    requires Distinct(CheckIds(context.checks)) && PartsOk(context, change)
    ensures RequiresTier(BoundChecks(context.checks, change.checks), tier) <==> SelectsTier(context, change, tier)
  {
    if RequiresTier(BoundChecks(context.checks, change.checks), tier) {
      BoundIsSelected(context, change, tier);
    }
    if SelectsTier(context, change, tier) {
      SelectedIsBound(context, change, tier);
    }
  }

  lemma BoundIsSelected(context: Context, change: DraftChange, tier: Tier)
    requires PartsOk(context, change) && RequiresTier(BoundChecks(context.checks, change.checks), tier)
    ensures SelectsTier(context, change, tier)
  {
    var bound := BoundChecks(context.checks, change.checks);
    var c :| c in bound && c.required && c.tier == tier;
    var k :| 0 <= k < |bound| && bound[k] == c;
    assert change.checks[k] in change.checks;
  }

  lemma SelectedIsBound(context: Context, change: DraftChange, tier: Tier)
    requires Distinct(CheckIds(context.checks)) && PartsOk(context, change) && SelectsTier(context, change, tier)
    ensures RequiresTier(BoundChecks(context.checks, change.checks), tier)
  {
    var bound := BoundChecks(context.checks, change.checks);
    var c :| c in context.checks && c.id in change.checks && c.required && c.tier == tier;
    var i :| 0 <= i < |context.checks| && context.checks[i] == c;
    var k :| 0 <= k < |change.checks| && change.checks[k] == c.id;
    CheckForOwn(context.checks, i);
    assert bound[k] == c;
  }

  /** Validation of a bound plan can only fail on Change IDs or a Change's checks: its native owners are a unique chain. */
  lemma BoundPlanValid(context: Context, draft: Draft, plan: Plan, b: nat)
    requires LinearHistory(context.history) && b < |context.history| && Distinct(CheckIds(context.checks))
    requires BoundAll(context, draft.changes, plan.changes)
    requires forall i :: 0 <= i < |draft.changes| ==> PartsOk(context, draft.changes[i])
    requires Retains(FlatDraft(draft.changes), AtomIds(context.history[b + 1..]))
    ensures Distinct(ExistingIds(FlatAtoms(plan.changes)))
    ensures ValidPlan(plan) <==>
            Distinct(DraftIds(draft.changes)) && AllChangesOk(context, draft.changes)
  {
    FlatSame(context, draft.changes, plan.changes);
    RetainedIds(FlatDraft(draft.changes), AtomIds(context.history[b + 1..]));
    SuffixDistinct(context.history, b + 1);
    assert ChangeIds(plan.changes) == DraftIds(draft.changes);
    forall i | 0 <= i < |draft.changes| ensures ChecksValid(plan.changes[i]) <==> ChangeOk(context, draft.changes[i]) {
      BoundChecksValid(context, draft.changes[i]);
    }
  }

  lemma SuffixDistinct(history: seq<Revision>, n: nat)
    requires Distinct(AtomIds(history)) && n <= |history|
    ensures Distinct(AtomIds(history[n..]))
  {
    var all, tail := AtomIds(history), AtomIds(history[n..]);
    assert forall i :: Pos(tail, i) ==> Pos(all, n + i) && tail[i] == all[n + i];
  }

  /** What is wrong with the measured facts before the draft is looked at, the first of these. */
  ghost function MeasuredFault(context: Context, draft: Draft): Option<PlanFault>
    requires context.history != []
  {
    if !LinearHistory(context.history) then Some(BrokenHistory)
    else if !SameCode(context.history[|context.history| - 1], context.head) then Some(HistoryPastHead)
    else if forall b: nat :: !BaseAt(context, draft, b) then Some(UnknownBase)
    else if !Distinct(CheckIds(context.checks)) then Some(DuplicateConfiguredCheck)
    else None
  }

  method HistoryFault(context: Context, draft: Draft) returns (fault: Option<PlanFault>, b: nat)
    requires context.history != []
    ensures fault == MeasuredFault(context, draft)
    ensures fault.None? ==> BaseAt(context, draft, b)
  {
    b := 0;
    var linear := HistoryLinear(context.history);
    if !linear { return Some(BrokenHistory), b; }
    if !SameCode(context.history[|context.history| - 1], context.head) { return Some(HistoryPastHead), b; }
    b := BaseIndex(context.history, draft.baseChangeId);
    if b == |context.history| { return Some(UnknownBase), b; }
    assert BaseAt(context, draft, b);
    var configured := AllDistinct(CheckIds(context.checks));
    fault := if configured then None else Some(DuplicateConfiguredCheck);
  }

  /** A linear history is one chain of single parents over distinct identities. */
  lemma HistoryIsChain(history: seq<Revision>)
    requires history != []
    ensures LinearHistory(history) <==>
      Distinct(AtomIds(history)) && |history[0].parentCommitIds| == 1 && Chained(history[0], history[1..])
  {
    var rest := history[1..];
    forall k | 0 <= k < |rest| ensures Before(history[0], rest, k) == history[k] && rest[k] == history[k + 1] {}
    if Chained(history[0], rest) && |history[0].parentCommitIds| == 1 {
      forall i | 0 <= i < |history| ensures ChainLink(history, i) {
        if i > 0 { assert OnlyParent(rest[i - 1], Before(history[0], rest, i - 1)); }
      }
    }
    if LinearHistory(history) {
      assert ChainLink(history, 0) by { assert |history[0].parentCommitIds| >= 0; }
      forall k | 0 <= k < |rest| ensures OnlyParent(rest[k], Before(history[0], rest, k)) {
        assert |history[k + 1].parentCommitIds| >= 0;
        assert ChainLink(history, k + 1);
      }
    }
  }

  /**
   * Accepts exactly the acceptable drafts, binds them to the measured facts, and every accepted plan is valid;
   * the duplicate-native-owner refusal of plan validation is never reached.
   */
  method Finalize(prompt: string, context: Context, draft: Draft) returns (r: Outcome<Plan>)
    requires context.history != []  // by schema
    ensures r.Ok? <==> Acceptable(context, draft)
    ensures r.Ok? ==> Binds(prompt, context, draft, r.value) && ValidPlan(r.value)
    ensures r.Refused? ==> r.error.InvalidPlan? && r.error.plan != DuplicateNativeOwner
    ensures MeasuredFault(context, draft).Some? ==> r == Refused(InvalidPlan(MeasuredFault(context, draft).value))
    ensures MeasuredFault(context, draft).None? ==>
              r.Ok? || r.error.plan !in {BrokenHistory, HistoryPastHead, UnknownBase, DuplicateConfiguredCheck}
  {
    var fault, b := HistoryFault(context, draft);
    if fault.Some? {
      FaultRefuses(context, draft);
      return Refused(InvalidPlan(fault.value));
    }
    r := BindPlan(prompt, context, draft, b);
  }

  lemma FaultRefuses(context: Context, draft: Draft)
    requires context.history != [] && MeasuredFault(context, draft).Some?
    ensures !Acceptable(context, draft)
  {
    if Measured(context) { NoBaseNoFit(context, draft); }
  }

  lemma NoBaseNoFit(context: Context, draft: Draft)
    requires forall b: nat :: !BaseAt(context, draft, b)
    ensures !Fits(context, draft)
  {
  }

  /** The draft's own part, over sound measurements and a known base. */
  method BindPlan(prompt: string, context: Context, draft: Draft, b: nat) returns (r: Outcome<Plan>)
    requires context.history != [] && MeasuredFault(context, draft).None? && BaseAt(context, draft, b)
    ensures r.Ok? <==> Acceptable(context, draft)
    ensures r.Ok? ==> Binds(prompt, context, draft, r.value) && ValidPlan(r.value)
    ensures r.Refused? ==>
      && r.error.InvalidPlan?
      && r.error.plan !in {DuplicateNativeOwner, BrokenHistory, HistoryPastHead, UnknownBase, DuplicateConfiguredCheck}
  {
    var bound := BindChanges(context, draft.changes);
    if bound.Refused? {
      UnbindableIsUnacceptable(context, draft);
      return Refused(bound.error);
    }
    OnlyBase(context, draft, b, bound.value.1);
    if bound.value.1 != AtomIds(context.history[b + 1..]) {
      return Refused(InvalidPlan(DescendantsNotRetained));
    }
    var plan := Plan(prompt, context.memoryRevision, context.history[b], Some(context.head), bound.value.0);
    BoundPlanValid(context, draft, plan, b);
    var valid := ValidatePlan(plan);
    FaultFreeIsMeasured(context, draft);
    BoundAcceptable(context, draft, plan, b);
    if valid.Refused? { return Refused(valid.error); }
    BoundIsBoundTo(context, draft.changes, plan.changes);
    r := Ok(plan);
  }

  lemma FaultFreeIsMeasured(context: Context, draft: Draft)
    requires context.history != [] && MeasuredFault(context, draft).None?
    ensures Measured(context)
  {
  }

  /** Once the atoms fit, a draft is acceptable exactly when the bound plan is valid. */
  lemma BoundAcceptable(context: Context, draft: Draft, plan: Plan, b: nat)
    requires Measured(context) && BaseAt(context, draft, b)
    requires BoundAll(context, draft.changes, plan.changes) && AllParts(context, draft.changes)
    requires Retains(FlatDraft(draft.changes), AtomIds(context.history[b + 1..]))
    ensures ValidPlan(plan) <==> Acceptable(context, draft)
  {
    BoundPlanValid(context, draft, plan, b);
    assert Fits(context, draft);
  }

  /** With unique identities the drafted base has one position, and only one existing suffix fits the draft's atoms. */
  lemma OnlyBase(context: Context, draft: Draft, b: nat, actual: seq<string>)
    requires LinearHistory(context.history) && BaseAt(context, draft, b) && Retains(FlatDraft(draft.changes), actual)
    ensures Fits(context, draft) <==> actual == AtomIds(context.history[b + 1..])
  {
    forall a: nat | BaseAt(context, draft, a) && Retains(FlatDraft(draft.changes), AtomIds(context.history[a + 1..]))
      ensures actual == AtomIds(context.history[b + 1..])
    {
      if a < b { DistinctAt(AtomIds(context.history), a, b); }
      if b < a { DistinctAt(AtomIds(context.history), b, a); }
      RetainsUnique(FlatDraft(draft.changes), actual, AtomIds(context.history[a + 1..]));
    }
  }
}
