/** What every run of the recorders keeps, and what that says about early feedback. */
module CodingFeedbackSafety {
  import opened Wrappers
  import opened CodingSchema
  import opened CodingWorkflow
  import opened CodingCorrection
  import opened CodingFeedback

  // ---- the invariant -----------------------------------------------------------------------------

  ghost predicate Known(mode: Mode, store: Store, i: nat) {
    match mode
    case Observe => i in store.gated
    case Recheck(refreshed) => i < |refreshed|
  }

  /** The implementation that slow checks of Change `i` run against. */
  ghost function Impl(mode: Mode, store: Store, i: nat): Implementation
    requires Known(mode, store, i)
  {
    match mode
    case Observe => store.gated[i].implementation
    case Recheck(refreshed) => refreshed[i].implementation
  }

  ghost predicate GroupOk(plan: Plan, mode: Mode, store: Store, i: nat, group: ValidatedChange) {
    && i < |plan.changes| && group.implementation.change == plan.changes[i].id && Exact(plan.changes[i], group)
    && match mode
       case Observe =>
         (i > 0 ==> i - 1 in store.gated)
         && Gated(plan.changes[i], if i == 0 then plan.base else store.gated[i - 1].implementation.head, group)
       case Recheck(refreshed) =>
         i < |refreshed| && group.implementation == refreshed[i].implementation
  }

  ghost predicate CheckedOk(plan: Plan, mode: Mode, store: Store, key: (nat, string), r: Receipt) {
    && key.0 < |plan.changes| && Known(mode, store, key.0) && r.checkId == key.1
    && (exists c :: c in Slows(plan, key.0) && c.id == key.1)
    && Verdict(plan, key.0, Impl(mode, store, key.0), r).Ok?
  }

  /** The first actionable receipt is stored under its own check and has findings. */
  ghost predicate FirstOk(plan: Plan, mode: Mode, store: Store) {
    store.first.Some? ==>
      exists key :: key in store.checked && store.checked[key] == store.first.value && HasFindings(plan, mode, store, key)
  }

  ghost predicate HasFindings(plan: Plan, mode: Mode, store: Store, key: (nat, string))
    requires key in store.checked
  {
    && CheckedOk(plan, mode, store, key, store.checked[key])
    && Verdict(plan, key.0, Impl(mode, store, key.0), store.checked[key]).value != []
  }

  ghost predicate GatesOk(plan: Plan, mode: Mode, store: Store) {
    forall i {:trigger GroupOk(plan, mode, store, i, store.gated[i])} ::
      i in store.gated ==> GroupOk(plan, mode, store, i, store.gated[i])
  }

  ghost predicate ChecksOk(plan: Plan, mode: Mode, store: Store) {
    forall k {:trigger CheckedOk(plan, mode, store, k, store.checked[k])} ::
      k in store.checked ==> CheckedOk(plan, mode, store, k, store.checked[k])
  }

  /** The ready marker follows the last gate, and in the first pass every gate follows the ones before it. */
  ghost predicate OrderOk(plan: Plan, mode: Mode, store: Store) {
    && (store.ready ==> |plan.changes| > 0 && |plan.changes| - 1 in store.gated)
    && (mode.Observe? ==> forall i {:trigger GatedBelow(store, i)} :: i in store.gated ==> GatedBelow(store, i))
  }

  ghost predicate GatedBelow(store: Store, i: nat) {
    forall j: nat :: j < i ==> j in store.gated
  }

  ghost predicate StoreOk(plan: Plan, mode: Mode, store: Store) {
    GatesOk(plan, mode, store) && ChecksOk(plan, mode, store) && FirstOk(plan, mode, store) && OrderOk(plan, mode, store)
  }

  predicate Written(phase: Phase) {
    !phase.Validate? && !phase.WriteOwn? && !phase.Rejected?
  }

  predicate Marked(phase: Phase) {
    Written(phase) && !phase.WriteMarker?
  }

  ghost predicate GateOk(plan: Plan, mode: Mode, store: Store, i: nat, p: Proc) {
    && p.payload.GatePayload? && GroupOk(plan, mode, store, i, p.payload.group)
    && !p.phase.Validate? && !p.phase.Rejected?
    && (mode.Observe? ==> GatedBelow(store, i))
    && (Written(p.phase) ==> i in store.gated)
    && (Marked(p.phase) && i + 1 == |plan.changes| ==> store.ready)
  }

  ghost predicate SlowOk(plan: Plan, mode: Mode, store: Store, i: nat, c: Check, p: Proc) {
    && p.payload.SlowPayload? && i < |plan.changes| && c in Slows(plan, i)
    && Known(mode, store, i) && p.payload.implementation == Impl(mode, store, i)
    && (!p.phase.Validate? && !p.phase.Rejected? ==>
          ReceiptFindings(plan, i, p.payload.implementation, c, p.payload.receipt).Ok?)
    && (Written(p.phase) ==> (i, c.id) in store.checked)
    && (Marked(p.phase) && Actionable(plan, SlowCheck(i, c), p.payload) ==> store.first.Some?)
  }

  ghost predicate GatherOk(plan: Plan, mode: Mode, store: Store, g: Gathering) {
    && Grows(g.began, store) && StoreOk(plan, mode, g.began)
    && g.began.ready && g.began.first == Some(g.trigger)
    && |g.done| <= |plan.changes|
    && (forall i :: 0 <= i < |g.done| ==> GroupCut(plan, g.began, store, i, g.done[i]))
    && (g.current.Some? ==> |g.done| < |plan.changes| && PartCut(plan, store, g))
  }

  /** The group being read: the gate's receipts and a cut of the slow checks read so far. */
  ghost predicate PartCut(plan: Plan, store: Store, g: Gathering)
    requires g.current.Some? && |g.done| < |plan.changes|
  {
    var i := |g.done|;
    && i in store.gated && g.current.value.implementation == store.gated[i].implementation
    && g.slow <= |Slows(plan, i)|
    && Cut(Slows(plan, i)[..g.slow], i, g.began, store, store.gated[i].receipts, g.current.value.receipts)
  }

  /** Every fast receipt behind the gates blames only known, earlier-or-own Changes at its own commit. */
  ghost predicate AllAttributed(plan: Plan, store: Store) {
    forall i, r :: i in store.gated && r in store.gated[i].receipts ==> Attributed(plan, i, store.gated[i].implementation, r)
  }

  ghost predicate AllGated(plan: Plan, store: Store) {
    forall i: nat :: i < |plan.changes| ==> i in store.gated
  }

  /** The only refusals a gathering recorder can reach, and what the store held at its last read. */
  ghost predicate RefusalOk(plan: Plan, mode: Mode, store: Store, error: Refusal, ended: Store) {
    && Grows(ended, store) && StoreOk(plan, mode, ended) && ended.ready && ended.first.Some?
    && (|| (error == InvalidReceipt(Misattributed) && AllGated(plan, ended) && !AllAttributed(plan, ended))
        || (error == InvalidReceipt(MissingImplementation) && !AllGated(plan, ended)))
  }

  ghost predicate RaisedOk(plan: Plan, mode: Mode, store: Store, result: Result, began: Store, ended: Store) {
    && Grows(began, ended) && Grows(ended, store) && StoreOk(plan, mode, began) && StoreOk(plan, mode, ended)
    && began.ready && began.first.Some? && Holds(result.changes, began.first.value)
    && result.status == ChangesRequested && result.findings != []
    && Faithful(plan, began, ended, result.changes)
    && AllAttributed(plan, ended)
  }

  ghost predicate PhaseOk(plan: Plan, mode: Mode, store: Store, phase: Phase) {
    match phase
    case ReadFirst(ready) => ready ==> store.ready
    case Gather(g) => GatherOk(plan, mode, store, g)
    case Refusing(error, ended) => RefusalOk(plan, mode, store, error, ended)
    case Raised(result, began, ended) => RaisedOk(plan, mode, store, result, began, ended)
    case _ => true
  }

  ghost predicate ProcOk(plan: Plan, mode: Mode, store: Store, r: Recorder, p: Proc) {
    && PhaseOk(plan, mode, store, p.phase)
    && match r
       case Gate(i) => GateOk(plan, mode, store, i, p)
       case SlowCheck(i, c) => SlowOk(plan, mode, store, i, c, p)
  }

  /** Each slot was filled by its own recorder, with that recorder's payload. */
  ghost predicate Owned(s: State) {
    && (forall i {:trigger s.store.gated[i]} :: i in s.store.gated ==>
          Gate(i) in s.procs && s.procs[Gate(i)].payload == GatePayload(s.store.gated[i]))
    && (forall k :: k in s.store.checked ==> exists c :: OwnsSlot(s, k, c))
  }

  ghost predicate OwnsSlot(s: State, k: (nat, string), c: Check) {
    && k in s.store.checked && c.id == k.1 && SlowCheck(k.0, c) in s.procs
    && s.procs[SlowCheck(k.0, c)].payload.SlowPayload?
    && s.procs[SlowCheck(k.0, c)].payload.receipt == s.store.checked[k]
  }

  ghost predicate Inv(plan: Plan, mode: Mode, s: State) {
    && StoreOk(plan, mode, s.store)
    && Owned(s)
    && forall r {:trigger ProcOk(plan, mode, s.store, r, s.procs[r])} :: r in s.procs ==> ProcOk(plan, mode, s.store, r, s.procs[r])
  }

  // ---- the invariant is monotone in the store ----------------------------------------------------

  lemma GroupOkGrows(plan: Plan, mode: Mode, a: Store, b: Store, i: nat, group: ValidatedChange)
    requires GroupOk(plan, mode, a, i, group) && Grows(a, b)
    ensures GroupOk(plan, mode, b, i, group)
  {
  }

  lemma CheckedOkGrows(plan: Plan, mode: Mode, a: Store, b: Store, key: (nat, string), r: Receipt)
    requires CheckedOk(plan, mode, a, key, r) && Grows(a, b)
    ensures CheckedOk(plan, mode, b, key, r) && Impl(mode, b, key.0) == Impl(mode, a, key.0)
  {
  }

  lemma FirstOkGrows(plan: Plan, mode: Mode, a: Store, b: Store)
    requires FirstOk(plan, mode, a) && Grows(a, b) && (a.first.None? ==> b.first.None?)
    ensures FirstOk(plan, mode, b)
  {
    if a.first.Some? {
      var key :| key in a.checked && a.checked[key] == a.first.value && HasFindings(plan, mode, a, key);
      CheckedOkGrows(plan, mode, a, b, key, a.checked[key]);
      assert HasFindings(plan, mode, b, key);
    }
  }

  lemma GrowsTransitive(a: Store, b: Store, c: Store)
    requires Grows(a, b) && Grows(b, c)
    ensures Grows(a, c)
  {
  }

  lemma GatherOkGrows(plan: Plan, mode: Mode, a: Store, b: Store, g: Gathering)
    requires GatherOk(plan, mode, a, g) && Grows(a, b)
    ensures GatherOk(plan, mode, b, g)
  {
    GrowsTransitive(g.began, a, b);
    forall i | 0 <= i < |g.done| ensures GroupCut(plan, g.began, b, i, g.done[i]) {
      assert GroupCut(plan, g.began, a, i, g.done[i]);
      CutGrows(Slows(plan, i), i, g.began, a, b, a.gated[i].receipts, g.done[i].receipts);
    }
    if g.current.Some? {
      var i := |g.done|;
      CutGrows(Slows(plan, i)[..g.slow], i, g.began, a, b, a.gated[i].receipts, g.current.value.receipts);
    }
  }

  lemma AttributedShrinks(plan: Plan, a: Store, b: Store)
    requires Grows(a, b) && AllAttributed(plan, b)
    ensures AllAttributed(plan, a)
  {
    forall i, r | i in a.gated && r in a.gated[i].receipts ensures Attributed(plan, i, a.gated[i].implementation, r) {
      assert i in b.gated && b.gated[i] == a.gated[i];
    }
  }

  lemma PhaseOkGrows(plan: Plan, mode: Mode, a: Store, b: Store, phase: Phase)
    requires PhaseOk(plan, mode, a, phase) && Grows(a, b)
    ensures PhaseOk(plan, mode, b, phase)
  {
    match phase
    case Gather(g) => GatherOkGrows(plan, mode, a, b, g);
    case Refusing(error, ended) => GrowsTransitive(ended, a, b);
    case Raised(result, began, ended) => GrowsTransitive(ended, a, b);
    case _ =>
  }

  /** A recorder that does not move is undisturbed by what the others write. */
  lemma ProcOkGrows(plan: Plan, mode: Mode, a: Store, b: Store, r: Recorder, p: Proc)
    requires ProcOk(plan, mode, a, r, p) && Grows(a, b)
    ensures ProcOk(plan, mode, b, r, p)
  {
    PhaseOkGrows(plan, mode, a, b, p.phase);
    if r.Gate? { GroupOkGrows(plan, mode, a, b, r.index, p.payload.group); }
  }

  // ---- writes ------------------------------------------------------------------------------------

  lemma {:induction false} FindOwn(checks: seq<Check>, c: Check)
    requires c in checks && Distinct(CheckIds(checks))
    ensures FindCheck(checks, c.id) == Some(c)
  {
    var i :| 0 <= i < |checks| && checks[i] == c;
    FindAt(checks, i);
  }

  lemma {:induction false} FindAt(checks: seq<Check>, i: nat)
    requires i < |checks| && Distinct(CheckIds(checks))
    ensures FindCheck(checks, checks[i].id) == Some(checks[i])
  {
    if i > 0 {
      DistinctAt(CheckIds(checks), 0, i);
      DistinctTail(checks);
      FindAt(checks[1..], i - 1);
    }
  }

  lemma DistinctTail(checks: seq<Check>)
    requires Distinct(CheckIds(checks)) && checks != []
    ensures Distinct(CheckIds(checks[1..]))
  {
    var all, tail := CheckIds(checks), CheckIds(checks[1..]);
    assert forall i :: Pos(tail, i) ==> Pos(all, i + 1) && tail[i] == all[i + 1];
  }

  /** An accepted slow receipt looks the same to the recorder and to every gathering reader. */
  lemma VerdictOfSlow(plan: Plan, i: nat, implementation: Implementation, c: Check, r: Receipt)
    requires ValidPlan(plan) && i < |plan.changes| && c in plan.changes[i].checks
    requires ReceiptMatches(implementation, c, r)
    ensures Verdict(plan, i, implementation, r) == ReceiptFindings(plan, i, implementation, c, r)
  {
    assert ChecksValid(plan.changes[i]);
    FindOwn(plan.changes[i].checks, c);
  }

  lemma GatesKept(plan: Plan, mode: Mode, a: Store, b: Store)
    requires GatesOk(plan, mode, a) && Grows(a, b)
    requires forall i :: i in b.gated && i !in a.gated ==> GroupOk(plan, mode, a, i, b.gated[i])
    ensures GatesOk(plan, mode, b)
  {
    forall i | i in b.gated ensures GroupOk(plan, mode, b, i, b.gated[i]) {
      if i in a.gated { assert GroupOk(plan, mode, a, i, a.gated[i]); }
      GroupOkGrows(plan, mode, a, b, i, b.gated[i]);
    }
  }

  lemma ChecksKept(plan: Plan, mode: Mode, a: Store, b: Store)
    requires ChecksOk(plan, mode, a) && Grows(a, b)
    requires forall k :: k in b.checked && k !in a.checked ==> CheckedOk(plan, mode, a, k, b.checked[k])
    ensures ChecksOk(plan, mode, b)
  {
    forall k | k in b.checked ensures CheckedOk(plan, mode, b, k, b.checked[k]) {
      if k in a.checked { assert CheckedOk(plan, mode, a, k, a.checked[k]); }
      CheckedOkGrows(plan, mode, a, b, k, b.checked[k]);
    }
  }

  lemma NewGate(plan: Plan, mode: Mode, a: Store, b: Store, i: nat, group: ValidatedChange)
    requires StoreOk(plan, mode, a) && i !in a.gated && b == a.(gated := a.gated[i := group])
    requires GroupOk(plan, mode, a, i, group) && (mode.Observe? ==> GatedBelow(a, i))
    ensures Grows(a, b) && StoreOk(plan, mode, b)
  {
    GatesKept(plan, mode, a, b);
    ChecksKept(plan, mode, a, b);
    FirstOkGrows(plan, mode, a, b);
    forall k | mode.Observe? && k in b.gated ensures GatedBelow(b, k) {
      assert GatedBelow(a, k);
    }
  }

  lemma NewCheck(plan: Plan, mode: Mode, a: Store, b: Store, key: (nat, string), r: Receipt)
    requires StoreOk(plan, mode, a) && key !in a.checked && b == a.(checked := a.checked[key := r])
    requires CheckedOk(plan, mode, a, key, r)
    ensures Grows(a, b) && StoreOk(plan, mode, b)
  {
    GatesKept(plan, mode, a, b);
    ChecksKept(plan, mode, a, b);
    FirstOkGrows(plan, mode, a, b);
    OrderKept(plan, mode, a, b);
  }

  lemma OrderKept(plan: Plan, mode: Mode, a: Store, b: Store)
    requires OrderOk(plan, mode, a) && b.gated == a.gated
    requires b.ready && !a.ready ==> |plan.changes| > 0 && |plan.changes| - 1 in a.gated
    ensures OrderOk(plan, mode, b)
  {
    forall k | mode.Observe? && k in b.gated ensures GatedBelow(b, k) {
      assert GatedBelow(a, k);
    }
  }

  lemma NewMarker(plan: Plan, mode: Mode, a: Store, b: Store)
    requires StoreOk(plan, mode, a) && Grows(a, b) && b.gated == a.gated && b.checked == a.checked
    requires b.ready && !a.ready ==> |plan.changes| > 0 && |plan.changes| - 1 in a.gated
    requires FirstOk(plan, mode, b)
    ensures StoreOk(plan, mode, b)
  {
    GatesKept(plan, mode, a, b);
    ChecksKept(plan, mode, a, b);
    OrderKept(plan, mode, a, b);
  }

  lemma GateWrites(plan: Plan, mode: Mode, a: Store, i: nat, p: Proc)
    requires StoreOk(plan, mode, a) && GateOk(plan, mode, a, i, p)
    ensures Grows(a, StoreAfter(plan, a, Gate(i), p)) && StoreOk(plan, mode, StoreAfter(plan, a, Gate(i), p))
  {
    var b := StoreAfter(plan, a, Gate(i), p);
    if p.phase.WriteOwn? && i !in a.gated {
      NewGate(plan, mode, a, b, i, p.payload.group);
    } else if p.phase.WriteMarker? && i + 1 == |plan.changes| {
      FirstOkGrows(plan, mode, a, b);
      NewMarker(plan, mode, a, b);
    }
  }

  lemma SlowWrites(plan: Plan, mode: Mode, a: Store, i: nat, c: Check, p: Proc)
    requires ValidPlan(plan) && StoreOk(plan, mode, a) && SlowOk(plan, mode, a, i, c, p)
    requires (i, c.id) in a.checked ==> a.checked[(i, c.id)] == p.payload.receipt
    ensures Grows(a, StoreAfter(plan, a, SlowCheck(i, c), p)) && StoreOk(plan, mode, StoreAfter(plan, a, SlowCheck(i, c), p))
  {
    var b := StoreAfter(plan, a, SlowCheck(i, c), p);
    if b != a {
      InTier(plan.changes[i].checks, Slow, c);
      VerdictOfSlow(plan, i, p.payload.implementation, c, p.payload.receipt);
      if p.phase.WriteOwn? {
        NewCheck(plan, mode, a, b, (i, c.id), p.payload.receipt);
      } else {
        FirstWritten(plan, mode, a, b, (i, c.id));
        NewMarker(plan, mode, a, b);
      }
    }
  }

  lemma FirstWritten(plan: Plan, mode: Mode, a: Store, b: Store, key: (nat, string))
    requires key in a.checked && b == a.(first := Some(a.checked[key])) && a.first.None?
    requires CheckedOk(plan, mode, a, key, a.checked[key])
    requires Verdict(plan, key.0, Impl(mode, a, key.0), a.checked[key]).value != []
    ensures FirstOk(plan, mode, b)
  {
    CheckedOkGrows(plan, mode, a, b, key, a.checked[key]);
    assert HasFindings(plan, mode, b, key);
  }

  /** The slot a slow recorder finds filled holds its own receipt. */
  lemma OwnReceipt(plan: Plan, mode: Mode, s: State, i: nat, c: Check)
    requires ValidPlan(plan) && Inv(plan, mode, s) && SlowCheck(i, c) in s.procs
    requires (i, c.id) in s.store.checked
    ensures s.procs[SlowCheck(i, c)].payload.SlowPayload?
    ensures s.store.checked[(i, c.id)] == s.procs[SlowCheck(i, c)].payload.receipt
  {
    var d :| OwnsSlot(s, (i, c.id), d);
    assert ProcOk(plan, mode, s.store, SlowCheck(i, c), s.procs[SlowCheck(i, c)]);
    assert ProcOk(plan, mode, s.store, SlowCheck(i, d), s.procs[SlowCheck(i, d)]);
    SameCheck(plan, i, c, d);
  }

  lemma SameCheck(plan: Plan, i: nat, c: Check, d: Check)
    requires ValidPlan(plan) && i < |plan.changes| && c in Slows(plan, i) && d in Slows(plan, i) && c.id == d.id
    ensures c == d
  {
    assert ChecksValid(plan.changes[i]);
    InTier(plan.changes[i].checks, Slow, c);
    InTier(plan.changes[i].checks, Slow, d);
    FindOwn(plan.changes[i].checks, c);
    FindOwn(plan.changes[i].checks, d);
  }

  /** A recorder's write fills an empty slot with good data or changes nothing. */
  lemma WriteKeeps(plan: Plan, mode: Mode, s: State, r: Recorder)
    requires ValidPlan(plan) && Inv(plan, mode, s) && r in s.procs
    ensures Grows(s.store, StoreAfter(plan, s.store, r, s.procs[r]))
    ensures StoreOk(plan, mode, StoreAfter(plan, s.store, r, s.procs[r]))
  {
    assert ProcOk(plan, mode, s.store, r, s.procs[r]);
    match r
    case Gate(i) => GateWrites(plan, mode, s.store, i, s.procs[r]);
    case SlowCheck(i, c) =>
      if (i, c.id) in s.store.checked { OwnReceipt(plan, mode, s, i, c); }
      SlowWrites(plan, mode, s.store, i, c, s.procs[r]);
  }

  // ---- judging a gathering -----------------------------------------------------------------------

  lemma {:induction false} ReceiptsOutcome(plan: Plan, i: nat, implementation: Implementation, rs: seq<Receipt>)
    requires i < |plan.changes|
    ensures var f := ReceiptsFindings(plan, i, implementation, rs);
      && (f.Ok? <==> forall r :: r in rs ==> Verdict(plan, i, implementation, r).Ok?)
      && (f.Refused? ==> exists r :: r in rs && Verdict(plan, i, implementation, r) == Refused(f.error))
      && (f.Ok? ==> forall r :: r in rs && Verdict(plan, i, implementation, r).value != [] ==> f.value != [])
  {
    if rs != [] {
      var init, last := rs[..|rs| - 1], rs[|rs| - 1];
      assert rs == init + [last] && last in rs;
      ReceiptsOutcome(plan, i, implementation, init);
    }
  }

  lemma {:induction false} AllRefused(plan: Plan, changes: seq<ValidatedChange>) returns (i: nat)
    requires |changes| <= |plan.changes| && AllFindings(plan, changes).Refused?
    ensures i < |changes| && GroupVerdict(plan, i, changes[i]) == Refused(AllFindings(plan, changes).error)
  {
    var n := |changes| - 1;
    if AllFindings(plan, changes[..n]).Refused? {
      i := AllRefused(plan, changes[..n]);
    } else {
      i := n;
    }
  }

  lemma {:induction false} AllFound(plan: Plan, changes: seq<ValidatedChange>, i: nat)
    requires i < |changes| <= |plan.changes| && AllFindings(plan, changes).Ok?
    ensures GroupVerdict(plan, i, changes[i]).Ok?
    ensures GroupVerdict(plan, i, changes[i]).value != [] ==> AllFindings(plan, changes).value != []
    decreases |changes|
  {
    if i < |changes| - 1 { AllFound(plan, changes[..|changes| - 1], i); }
  }

  function GroupVerdict(plan: Plan, i: nat, group: ValidatedChange): Outcome<seq<Finding>>
    requires i < |plan.changes|
  {
    ReceiptsFindings(plan, i, group.implementation, group.receipts)
  }

  /** A gathered receipt is refused only when it is a gate's fast receipt that misattributes a finding. */
  lemma GatheredVerdict(plan: Plan, mode: Mode, began: Store, store: Store, i: nat, group: ValidatedChange, r: Receipt)
    requires ValidPlan(plan) && StoreOk(plan, mode, store) && GroupCut(plan, began, store, i, group) && r in group.receipts
    ensures var v := Verdict(plan, i, group.implementation, r);
      v.Ok? || (v == Refused(InvalidReceipt(Misattributed)) && !AllAttributed(plan, store))
    ensures r in store.gated[i].receipts ==>
              (Verdict(plan, i, group.implementation, r).Ok? <==> Attributed(plan, i, group.implementation, r))
  {
    assert GroupOk(plan, mode, store, i, store.gated[i]);
    if r in store.gated[i].receipts {
      assert ExactReceipt(plan.changes[i], group.implementation, r);
      var c :| c in plan.changes[i].checks && ReceiptMatches(group.implementation, c, r);
      VerdictOfSlow(plan, i, group.implementation, c, r);
    } else {
      CutSound(Slows(plan, i), i, began, store, store.gated[i].receipts, group.receipts, r);
      var c :| c in Slows(plan, i) && (i, c.id) in store.checked && store.checked[(i, c.id)] == r;
      assert CheckedOk(plan, mode, store, (i, c.id), store.checked[(i, c.id)]);
    }
  }

  /** The trigger was stored before gathering began, so it is among the collected receipts and brings findings. */
  lemma TriggerCollected(plan: Plan, mode: Mode, store: Store, g: Gathering) returns (i: nat)
    requires ValidPlan(plan) && StoreOk(plan, mode, store) && GatherOk(plan, mode, store, g) && |g.done| == |plan.changes|
    ensures i < |g.done| && g.trigger in g.done[i].receipts
    ensures Verdict(plan, i, g.done[i].implementation, g.trigger).Ok?
    ensures Verdict(plan, i, g.done[i].implementation, g.trigger).value != []
  {
    var key :| key in g.began.checked && g.began.checked[key] == g.trigger && HasFindings(plan, mode, g.began, key);
    i := key.0;
    var c :| c in Slows(plan, i) && c.id == key.1;
    assert GroupCut(plan, g.began, store, i, g.done[i]);
    CutComplete(Slows(plan, i), i, g.began, store, store.gated[i].receipts, g.done[i].receipts, c);
    CheckedOkGrows(plan, mode, g.began, store, key, g.trigger);
    assert GroupOk(plan, mode, store, i, store.gated[i]);
  }

  lemma JudgeKeeps(plan: Plan, mode: Mode, store: Store, g: Gathering)
    requires ValidPlan(plan) && StoreOk(plan, mode, store) && GatherOk(plan, mode, store, g) && |g.done| == |plan.changes|
    ensures PhaseOk(plan, mode, store, Judge(plan, store, g))
    ensures Judge(plan, store, g).Raised? || Judge(plan, store, g).Refusing?
  {
    if AllFindings(plan, g.done).Refused? {
      JudgeRefuses(plan, mode, store, g);
    } else {
      var t := TriggerCollected(plan, mode, store, g);
      AllFound(plan, g.done, t);
      ReceiptsOutcome(plan, t, g.done[t].implementation, g.done[t].receipts);
      AttributedWhenOk(plan, mode, store, g);
    }
  }

  lemma JudgeRefuses(plan: Plan, mode: Mode, store: Store, g: Gathering)
    requires ValidPlan(plan) && StoreOk(plan, mode, store) && GatherOk(plan, mode, store, g) && |g.done| == |plan.changes|
    requires AllFindings(plan, g.done).Refused?
    ensures RefusalOk(plan, mode, store, AllFindings(plan, g.done).error, store)
  {
    var error := AllFindings(plan, g.done).error;
    GatheredAll(plan, mode, store, g);
    var i := AllRefused(plan, g.done);
    ReceiptsOutcome(plan, i, g.done[i].implementation, g.done[i].receipts);
    var r :| r in g.done[i].receipts && Verdict(plan, i, g.done[i].implementation, r) == Refused(error);
    assert GroupCut(plan, g.began, store, i, g.done[i]);
    GatheredVerdict(plan, mode, g.began, store, i, g.done[i], r);
  }

  lemma GatheredAll(plan: Plan, mode: Mode, store: Store, g: Gathering)
    requires GatherOk(plan, mode, store, g) && |g.done| == |plan.changes|
    ensures AllGated(plan, store)
  {
    forall i: nat | i < |plan.changes| ensures i in store.gated {
      assert GroupCut(plan, g.began, store, i, g.done[i]);
    }
  }

  lemma AttributedWhenOk(plan: Plan, mode: Mode, store: Store, g: Gathering)
    requires ValidPlan(plan) && StoreOk(plan, mode, store) && GatherOk(plan, mode, store, g) && |g.done| == |plan.changes|
    requires AllFindings(plan, g.done).Ok?
    ensures AllAttributed(plan, store)
  {
    forall i, r | i in store.gated && r in store.gated[i].receipts
      ensures Attributed(plan, i, store.gated[i].implementation, r)
    {
      assert GroupOk(plan, mode, store, i, store.gated[i]);
      assert GroupCut(plan, g.began, store, i, g.done[i]);
      AllFound(plan, g.done, i);
      ReceiptsOutcome(plan, i, g.done[i].implementation, g.done[i].receipts);
      CutBase(Slows(plan, i), i, g.began, store, store.gated[i].receipts, g.done[i].receipts);
      GatheredVerdict(plan, mode, g.began, store, i, g.done[i], r);
    }
  }

  lemma {:induction false} CutBase(
    checks: seq<Check>, i: nat, began: Store, ended: Store, base: seq<Receipt>, rs: seq<Receipt>)
    requires Cut(checks, i, began, ended, base, rs)
    ensures base <= rs
  {
    if checks != [] {
      var init, key := checks[..|checks| - 1], (i, checks[|checks| - 1].id);
      if key in ended.checked && rs != [] && rs[|rs| - 1] == ended.checked[key]
         && Cut(init, i, began, ended, base, rs[..|rs| - 1]) {
        CutBase(init, i, began, ended, base, rs[..|rs| - 1]);
      } else {
        CutBase(init, i, began, ended, base, rs);
      }
    }
  }

  /** In the first pass, and for a single Change, the ready marker means that every gate is stored. */
  lemma ReadyMeansAll(plan: Plan, mode: Mode, store: Store, i: nat)
    requires StoreOk(plan, mode, store) && store.ready && i < |plan.changes|
    requires mode.Observe? || |plan.changes| == 1
    ensures i in store.gated
  {
    if mode.Observe? { assert GatedBelow(store, |plan.changes| - 1); }
  }

  lemma GatherKeeps(plan: Plan, mode: Mode, store: Store, g: Gathering)
    requires ValidPlan(plan) && StoreOk(plan, mode, store) && GatherOk(plan, mode, store, g)
    ensures PhaseOk(plan, mode, store, GatherStep(plan, store, g))
    ensures var phase := GatherStep(plan, store, g); phase.Gather? || phase.Raised? || phase.Refusing?
  {
    var i := |g.done|;
    if i == |plan.changes| {
      JudgeKeeps(plan, mode, store, g);
    } else if g.current.None? {
      ReadGate(plan, mode, store, g);
    } else if g.slow < |Slows(plan, i)| {
      ReadOne(plan, store, g);
    } else {
      CloseGroup(plan, mode, store, g);
    }
  }

  lemma CloseGroup(plan: Plan, mode: Mode, store: Store, g: Gathering)
    requires GatherOk(plan, mode, store, g) && |g.done| < |plan.changes|
    requires g.current.Some? && g.slow >= |Slows(plan, |g.done|)|
    ensures GatherStep(plan, store, g).Gather? && PhaseOk(plan, mode, store, GatherStep(plan, store, g))
  {
    var i := |g.done|;
    assert Slows(plan, i)[..g.slow] == Slows(plan, i);
  }

  lemma ReadGate(plan: Plan, mode: Mode, store: Store, g: Gathering)
    requires StoreOk(plan, mode, store) && GatherOk(plan, mode, store, g) && |g.done| < |plan.changes| && g.current.None?
    ensures PhaseOk(plan, mode, store, GatherStep(plan, store, g))
    ensures var phase := GatherStep(plan, store, g); phase.Gather? || phase.Refusing?
  {
    var i := |g.done|;
    if i in store.gated {
      assert GroupOk(plan, mode, store, i, store.gated[i]);
      assert Slows(plan, i)[..0] == [];
    }
  }

  lemma ReadOne(plan: Plan, store: Store, g: Gathering)
    requires g.current.Some? && |g.done| < |plan.changes| && PartCut(plan, store, g) && g.slow < |Slows(plan, |g.done|)|
    requires Grows(g.began, store)
    ensures var next := GatherStep(plan, store, g);
      && next.Gather? && next.g.current.Some? && next.g.done == g.done
      && next.g.began == g.began && next.g.trigger == g.trigger && PartCut(plan, store, next.g)
  {
    var slows := Slows(plan, |g.done|);
    var next := GatherStep(plan, store, g).g;
    assert slows[..g.slow + 1][..g.slow] == slows[..g.slow];
    var rs, more := g.current.value.receipts, next.current.value.receipts;
    if (|g.done|, slows[g.slow].id) in store.checked {
      assert more[..|more| - 1] == rs;
    }
  }

  // ---- every step keeps the invariant ------------------------------------------------------------

  lemma GatedGroupOk(change: Change, parent: Revision, group: ValidatedChange)
    requires Gated(change, parent, group) && Distinct(CheckIds(change.checks))
    ensures group.implementation.change == change.id && Exact(change, group)
  {
    forall r | r in group.receipts ensures ExactReceipt(change, group.implementation, r) {
      var k :| 0 <= k < |group.receipts| && group.receipts[k] == r;
      GatedReceiptsExact(change, parent, group, k);
    }
  }

  /** A gate that returned left its payload in the store. */
  lemma ReturnedGate(plan: Plan, mode: Mode, s: State, i: nat)
    requires Inv(plan, mode, s) && Returned(s, Gate(i))
    ensures i in s.store.gated && s.procs[Gate(i)].payload == GatePayload(s.store.gated[i])
    ensures mode.Observe? ==> GatedBelow(s.store, i)
  {
    assert ProcOk(plan, mode, s.store, Gate(i), s.procs[Gate(i)]);
  }

  lemma BeginOk(plan: Plan, mode: Mode, s: State, r: Recorder, payload: Payload)
    requires ValidPlan(plan) && Inv(plan, mode, s) && Allowed(plan, mode, s, Step(r, Begin(payload)))
    ensures ProcOk(plan, mode, s.store, r, Proc(payload, Start(r)))
  {
    match r
    case Gate(i) => BeginGateOk(plan, mode, s, i, payload);
    case SlowCheck(i, c) => if mode.Observe? { ReturnedGate(plan, mode, s, i); }
  }

  lemma BeginGateOk(plan: Plan, mode: Mode, s: State, i: nat, payload: Payload)
    requires ValidPlan(plan) && Inv(plan, mode, s) && Allowed(plan, mode, s, Step(Gate(i), Begin(payload)))
    ensures ProcOk(plan, mode, s.store, Gate(i), Proc(payload, WriteOwn))
  {
    assert ChecksValid(plan.changes[i]);
    if mode.Observe? && i > 0 {
      ReturnedGate(plan, mode, s, i - 1);
      GatedGroupOk(plan.changes[i], s.store.gated[i - 1].implementation.head, payload.group);
    } else {
      var parent := if mode.Observe? then plan.base else mode.refreshed[i].implementation.parent;
      GatedGroupOk(plan.changes[i], parent, payload.group);
    }
  }

  lemma AdvanceOk(plan: Plan, mode: Mode, s: State, r: Recorder)
    requires ValidPlan(plan) && Inv(plan, mode, s) && r in s.procs && !Terminal(s.procs[r].phase)
    ensures var p := s.procs[r];
      ProcOk(plan, mode, StoreAfter(plan, s.store, r, p), r, p.(phase := PhaseAfter(plan, s.store, r, p)))
  {
    var a, p := s.store, s.procs[r];
    assert ProcOk(plan, mode, a, r, p);
    WriteKeeps(plan, mode, s, r);
    ProcOkGrows(plan, mode, a, StoreAfter(plan, a, r, p), r, p);
    NextPhase(plan, mode, a, r, p);
    match r
    case Gate(i) => NextGate(plan, mode, a, i, p);
    case SlowCheck(i, c) => NextSlow(plan, mode, a, i, c, p);
  }

  /** The phase a recorder moves to carries what that phase promises. */
  lemma NextPhase(plan: Plan, mode: Mode, a: Store, r: Recorder, p: Proc)
    requires ValidPlan(plan) && StoreOk(plan, mode, a) && PhaseOk(plan, mode, a, p.phase) && !Terminal(p.phase)
    ensures PhaseOk(plan, mode, StoreAfter(plan, a, r, p), PhaseAfter(plan, a, r, p))
  {
    match p.phase
    case Gather(g) => GatherKeeps(plan, mode, a, g);
    case ReadFirst(ready) => if ready && a.first.Some? { BeganOk(plan, mode, a); }
    case _ =>
  }

  lemma NextGate(plan: Plan, mode: Mode, a: Store, i: nat, p: Proc)
    requires GateOk(plan, mode, a, i, p) && GateOk(plan, mode, StoreAfter(plan, a, Gate(i), p), i, p)
    ensures GateOk(plan, mode, StoreAfter(plan, a, Gate(i), p), i, p.(phase := PhaseAfter(plan, a, Gate(i), p)))
  {
  }

  lemma NextSlow(plan: Plan, mode: Mode, a: Store, i: nat, c: Check, p: Proc)
    requires SlowOk(plan, mode, a, i, c, p) && SlowOk(plan, mode, StoreAfter(plan, a, SlowCheck(i, c), p), i, c, p)
    ensures var r := SlowCheck(i, c);
      SlowOk(plan, mode, StoreAfter(plan, a, r, p), i, c, p.(phase := PhaseAfter(plan, a, r, p)))
  {
  }

  lemma BeganOk(plan: Plan, mode: Mode, a: Store)
    requires StoreOk(plan, mode, a) && a.ready && a.first.Some?
    ensures GatherOk(plan, mode, a, Gathering(a.first.value, a, [], None, 0))
  {
  }

  lemma StepKeeps(plan: Plan, mode: Mode, s: State, step: Step)
    requires ValidPlan(plan) && Inv(plan, mode, s) && Allowed(plan, mode, s, step)
    ensures Inv(plan, mode, Apply(plan, s, step))
  {
    match step.move
    case Begin(payload) =>
      BeginOk(plan, mode, s, step.r, payload);
      SilentKeeps(plan, mode, s, Apply(plan, s, step), step.r);
    case Restart =>
      assert ProcOk(plan, mode, s.store, step.r, s.procs[step.r]);
      SilentKeeps(plan, mode, s, Apply(plan, s, step), step.r);
    case Advance => AdvanceKeeps(plan, mode, s, step.r);
  }

  lemma SilentKeeps(plan: Plan, mode: Mode, s: State, t: State, r: Recorder)
    requires Inv(plan, mode, s) && t.store == s.store && r in t.procs && t.procs == s.procs[r := t.procs[r]]
    requires r in s.procs ==> t.procs[r].payload == s.procs[r].payload
    requires ProcOk(plan, mode, s.store, r, t.procs[r])
    ensures Inv(plan, mode, t)
  {
    OwnedKept(s, t, r);
    OthersKept(plan, mode, s, t, r);
  }

  lemma AdvanceKeeps(plan: Plan, mode: Mode, s: State, r: Recorder)
    requires ValidPlan(plan) && Inv(plan, mode, s) && r in s.procs && !Terminal(s.procs[r].phase)
    ensures Inv(plan, mode, Apply(plan, s, Step(r, Advance)))
  {
    var t := Apply(plan, s, Step(r, Advance));
    WriteKeeps(plan, mode, s, r);
    AdvanceOk(plan, mode, s, r);
    assert ProcOk(plan, mode, s.store, r, s.procs[r]);
    OwnedAdvance(plan, s, r);
    OthersKept(plan, mode, s, t, r);
  }

  lemma OthersKept(plan: Plan, mode: Mode, s: State, t: State, r: Recorder)
    requires forall q {:trigger ProcOk(plan, mode, s.store, q, s.procs[q])} :: q in s.procs ==> ProcOk(plan, mode, s.store, q, s.procs[q])
    requires Grows(s.store, t.store) && r in t.procs && t.procs == s.procs[r := t.procs[r]]
    requires ProcOk(plan, mode, t.store, r, t.procs[r])
    ensures forall q {:trigger ProcOk(plan, mode, t.store, q, t.procs[q])} :: q in t.procs ==> ProcOk(plan, mode, t.store, q, t.procs[q])
  {
    forall q | q in t.procs ensures ProcOk(plan, mode, t.store, q, t.procs[q]) {
      if q != r {
        assert ProcOk(plan, mode, s.store, q, s.procs[q]);
        ProcOkGrows(plan, mode, s.store, t.store, q, s.procs[q]);
      }
    }
  }

  /** A step that writes nothing and changes no earlier payload keeps every slot with its recorder. */
  lemma OwnedKept(s: State, t: State, r: Recorder)
    requires Owned(s) && t.store == s.store && t.procs.Keys == s.procs.Keys + {r}
    requires forall q :: q in s.procs ==> t.procs[q].payload == s.procs[q].payload
    ensures Owned(t)
  {
    forall k | k in t.store.checked ensures exists c :: OwnsSlot(t, k, c) {
      var c :| OwnsSlot(s, k, c);
      assert OwnsSlot(t, k, c);
    }
  }

  lemma OwnedAdvance(plan: Plan, s: State, r: Recorder)
    requires Owned(s) && r in s.procs
    requires match r case Gate(_) => s.procs[r].payload.GatePayload? case SlowCheck(_, _) => s.procs[r].payload.SlowPayload?
    ensures Owned(Apply(plan, s, Step(r, Advance)))
  {
    var t := Apply(plan, s, Step(r, Advance));
    forall i | i in t.store.gated
      ensures Gate(i) in t.procs && t.procs[Gate(i)].payload == GatePayload(t.store.gated[i])
    {
      if i in s.store.gated { assert s.procs[Gate(i)].payload == GatePayload(s.store.gated[i]); }
    }
    forall k | k in t.store.checked ensures exists c :: OwnsSlot(t, k, c) {
      if k in s.store.checked {
        var c :| OwnsSlot(s, k, c);
        assert OwnsSlot(t, k, c);
      } else {
        assert OwnsSlot(t, k, r.check);
      }
    }
  }

  /** The invariant holds at the end of every run. */
  lemma {:induction false} RunKeeps(plan: Plan, mode: Mode, steps: seq<Step>)
    requires ValidPlan(plan) && Run(plan, mode, steps)
    ensures Inv(plan, mode, After(plan, steps))
  {
    if steps != [] {
      RunKeeps(plan, mode, steps[..|steps| - 1]);
      StepKeeps(plan, mode, After(plan, steps[..|steps| - 1]), steps[|steps| - 1]);
    }
  }

  // ---- the pair cannot be missed -----------------------------------------------------------------

  /** This recorder has not looked too early: it is bound to find both markers. */
  ghost predicate OnTrack(plan: Plan, r: Recorder, p: Proc) {
    && !p.phase.Finished? && !p.phase.Rejected? && p.phase != ReadFirst(false)
    && (r.SlowCheck? ==>
          p.payload.SlowPayload? && ReceiptFindings(plan, r.index, p.payload.implementation, r.check, p.payload.receipt).Ok?)
  }

  ghost predicate BothSet(s: State) {
    s.store.ready && s.store.first.Some?
  }

  ghost predicate Watched(plan: Plan, s: State) {
    BothSet(s) ==> exists r :: r in s.procs && OnTrack(plan, r, s.procs[r])
  }

  lemma TrackKept(plan: Plan, mode: Mode, s: State, step: Step, r: Recorder)
    requires ValidPlan(plan) && Inv(plan, mode, s) && Allowed(plan, mode, s, step)
    requires BothSet(s) && r in s.procs && OnTrack(plan, r, s.procs[r])
    ensures var t := Apply(plan, s, step); r in t.procs && OnTrack(plan, r, t.procs[r])
  {
    if step == Step(r, Advance) {
      SlowTier(plan, mode, s, r);
      TrackAdvances(plan, s.store, r, s.procs[r]);
    } else {
      TrackStays(plan, mode, s, step, r);
    }
  }

  lemma SlowTier(plan: Plan, mode: Mode, s: State, r: Recorder)
    requires Inv(plan, mode, s) && r in s.procs
    ensures r.SlowCheck? ==> r.check.tier == Slow
  {
    assert ProcOk(plan, mode, s.store, r, s.procs[r]);
    if r.SlowCheck? { InTier(plan.changes[r.index].checks, Slow, r.check); }
  }

  lemma TrackStays(plan: Plan, mode: Mode, s: State, step: Step, r: Recorder)
    requires Inv(plan, mode, s) && Allowed(plan, mode, s, step) && step != Step(r, Advance)
    requires r in s.procs && OnTrack(plan, r, s.procs[r])
    ensures var t := Apply(plan, s, step); r in t.procs && OnTrack(plan, r, t.procs[r])
  {
    if step.r == r { assert ProcOk(plan, mode, s.store, r, s.procs[r]); }
  }

  lemma TrackAdvances(plan: Plan, store: Store, r: Recorder, p: Proc)
    requires store.ready && store.first.Some? && OnTrack(plan, r, p) && (r.SlowCheck? ==> r.check.tier == Slow)
    ensures OnTrack(plan, r, p.(phase := PhaseAfter(plan, store, r, p)))
  {
    if p.phase.Gather? && |p.phase.g.done| <= |plan.changes| { GatherGoesOn(plan, store, p.phase.g); }
  }

  lemma GatherGoesOn(plan: Plan, store: Store, g: Gathering)
    requires |g.done| <= |plan.changes|
    ensures var phase := GatherStep(plan, store, g); phase.Gather? || phase.Raised? || phase.Refusing?
  {
  }

  lemma WatchKept(plan: Plan, mode: Mode, s: State, step: Step)
    requires ValidPlan(plan) && Inv(plan, mode, s) && Allowed(plan, mode, s, step) && Watched(plan, s)
    ensures Watched(plan, Apply(plan, s, step))
  {
    var t := Apply(plan, s, step);
    if BothSet(s) {
      var r :| r in s.procs && OnTrack(plan, r, s.procs[r]);
      TrackKept(plan, mode, s, step, r);
    } else if BothSet(t) {
      assert ProcOk(plan, mode, s.store, step.r, s.procs[step.r]);
      assert OnTrack(plan, step.r, t.procs[step.r]);
    }
  }

  lemma {:induction false} RunWatched(plan: Plan, mode: Mode, steps: seq<Step>)
    requires ValidPlan(plan) && Run(plan, mode, steps)
    ensures Watched(plan, After(plan, steps))
  {
    if steps != [] {
      var init := steps[..|steps| - 1];
      RunKeeps(plan, mode, init);
      RunWatched(plan, mode, init);
      WatchKept(plan, mode, After(plan, init), steps[|steps| - 1]);
    }
  }

  ghost predicate Quiet(s: State) {
    forall r :: r in s.procs ==> Terminal(s.procs[r].phase)
  }

  /**
   * In every run of either pass: once both markers are stored and the recorders have ended, some recorder ended by
   * raising early feedback or by refusing what it gathered. None can have been missed.
   */
  lemma PairNeverMissed(plan: Plan, mode: Mode, steps: seq<Step>) returns (r: Recorder)
    requires ValidPlan(plan) && Run(plan, mode, steps)
    requires BothSet(After(plan, steps)) && Quiet(After(plan, steps))
    ensures var s := After(plan, steps);
      && r in s.procs && (s.procs[r].phase.Raised? || s.procs[r].phase.Refusing?)
      && (s.procs[r].phase.Refusing? ==> RefusalOk(plan, mode, s.store, s.procs[r].phase.error, s.procs[r].phase.ended))
  {
    RunKeeps(plan, mode, steps);
    RunWatched(plan, mode, steps);
    var s := After(plan, steps);
    r :| r in s.procs && OnTrack(plan, r, s.procs[r]);
    assert ProcOk(plan, mode, s.store, r, s.procs[r]);
  }

  /**
   * Either pass: a recorder that ends after gathering raises early feedback exactly when, at its last read, every gate
   * was stored and every fast receipt behind them attributes its findings properly; otherwise it refuses for that reason.
   */
  lemma GatherOutcome(plan: Plan, mode: Mode, steps: seq<Step>, r: Recorder)
    requires ValidPlan(plan) && Run(plan, mode, steps) && r in After(plan, steps).procs
    requires var phase := After(plan, steps).procs[r].phase; phase.Raised? || phase.Refusing?
    ensures var s := After(plan, steps); var phase := s.procs[r].phase;
      && (phase.Raised? <==> AllGated(plan, phase.ended) && AllAttributed(plan, phase.ended))
      && (phase.Refusing? ==>
            phase.error == InvalidReceipt(if AllGated(plan, phase.ended) then Misattributed else MissingImplementation))
      && Grows(phase.ended, s.store) && phase.ended.ready && StoreOk(plan, mode, phase.ended)
  {
    var s := After(plan, steps);
    PhaseHolds(plan, mode, steps, r);
    EndedPhase(plan, mode, s.store, s.procs[r].phase);
  }

  lemma EndedPhase(plan: Plan, mode: Mode, store: Store, phase: Phase)
    requires PhaseOk(plan, mode, store, phase) && (phase.Raised? || phase.Refusing?)
    ensures phase.Raised? <==> AllGated(plan, phase.ended) && AllAttributed(plan, phase.ended)
    ensures phase.Refusing? ==>
              phase.error == InvalidReceipt(if AllGated(plan, phase.ended) then Misattributed else MissingImplementation)
    ensures Grows(phase.ended, store) && phase.ended.ready && StoreOk(plan, mode, phase.ended)
  {
    if phase.Raised? {
      forall i: nat | i < |plan.changes| ensures i in phase.ended.gated {
        assert GroupCut(plan, phase.began, phase.ended, i, phase.result.changes[i]);
      }
    }
  }

  /**
   * The recheck: the same, and the missing-implementation refusal needs two Changes; see `RecheckMissesExactly` for
   * when it can then happen.
   */
  lemma RecheckOutcome(plan: Plan, refreshed: seq<ValidatedChange>, steps: seq<Step>, r: Recorder)
    requires ValidPlan(plan) && Run(plan, Recheck(refreshed), steps) && r in After(plan, steps).procs
    requires var phase := After(plan, steps).procs[r].phase; phase.Raised? || phase.Refusing?
    ensures var phase := After(plan, steps).procs[r].phase;
      && (phase.Raised? <==> AllGated(plan, phase.ended) && AllAttributed(plan, phase.ended))
      && (phase.Refusing? && phase.error == InvalidReceipt(MissingImplementation) ==> |plan.changes| > 1)
  {
    GatherOutcome(plan, Recheck(refreshed), steps, r);
    var ended := After(plan, steps).procs[r].phase.ended;
    if |plan.changes| <= 1 {
      forall i: nat | i < |plan.changes| ensures i in ended.gated { ReadyMeansAll(plan, Recheck(refreshed), ended, i); }
    }
  }

  /**
   * The first pass: a recorder that ends after gathering raises early feedback exactly when every fast receipt behind
   * the gates attributes its findings properly; otherwise it refuses for that reason. The missing-implementation,
   * reordering, unplanned-check and missing-trigger refusals never happen.
   */
  lemma FirstPassOutcome(plan: Plan, steps: seq<Step>, r: Recorder)
    requires ValidPlan(plan) && Run(plan, Observe, steps)
    requires r in After(plan, steps).procs
    requires var phase := After(plan, steps).procs[r].phase; phase.Raised? || phase.Refusing?
    ensures var s := After(plan, steps);
      && (s.procs[r].phase.Refusing? ==> s.procs[r].phase.error == InvalidReceipt(Misattributed))
      && (s.procs[r].phase.Raised? <==> AllAttributed(plan, s.store))
  {
    GatherOutcome(plan, Observe, steps, r);
    RunKeeps(plan, Observe, steps);
    var s := After(plan, steps);
    AllGatesIn(plan, s.procs[r].phase.ended, s.store);
  }

  /** So with attributed fast receipts, some recorder of every completed first pass raises early feedback. */
  lemma FirstPassRaises(plan: Plan, steps: seq<Step>) returns (r: Recorder)
    requires ValidPlan(plan) && Run(plan, Observe, steps)
    requires BothSet(After(plan, steps)) && Quiet(After(plan, steps)) && AllAttributed(plan, After(plan, steps).store)
    ensures r in After(plan, steps).procs && After(plan, steps).procs[r].phase.Raised?
  {
    r := PairNeverMissed(plan, Observe, steps);
    FirstPassOutcome(plan, steps, r);
  }

  /** In the first pass the ready marker closes the gates: nothing about them changes afterwards. */
  lemma AllGatesIn(plan: Plan, ended: Store, store: Store)
    requires Grows(ended, store) && GatesOk(plan, Observe, store)
    requires StoreOk(plan, Observe, ended) && ended.ready
    ensures AllGated(plan, ended) && (AllAttributed(plan, ended) <==> AllAttributed(plan, store))
  {
    forall i: nat | i < |plan.changes| ensures i in ended.gated { ReadyMeansAll(plan, Observe, ended, i); }
    forall i | i in store.gated ensures i in ended.gated {
      assert GroupOk(plan, Observe, store, i, store.gated[i]);
    }
    if AllAttributed(plan, store) { AttributedShrinks(plan, ended, store); }
    if AllAttributed(plan, ended) {
      forall i, q | i in store.gated && q in store.gated[i].receipts
        ensures Attributed(plan, i, store.gated[i].implementation, q)
      {
        assert i in ended.gated && q in ended.gated[i].receipts;
      }
    }
  }

  // ---- what early feedback tells -----------------------------------------------------------------

  /** What receipt `k` of the group contributes, as a receipt of the planned check it names. */
  ghost predicate ReceiptTells(plan: Plan, i: nat, group: ValidatedChange, k: nat, part: seq<Finding>) {
    && i < |plan.changes| && k < |group.receipts|
    && exists c :: c in plan.changes[i].checks && c.id == group.receipts[k].checkId
                   && Reports(plan, i, group.implementation, c, group.receipts[k], part)
  }

  ghost function ReceiptParts(plan: Plan, i: nat, group: ValidatedChange): (nat, seq<Finding>) -> bool {
    (k: nat, part: seq<Finding>) => ReceiptTells(plan, i, group, k, part)
  }

  ghost function GatheredParts(plan: Plan, changes: seq<ValidatedChange>): (nat, seq<Finding>) -> bool {
    (i: nat, part: seq<Finding>) =>
      i < |changes| && Composed(ReceiptParts(plan, i, changes[i]), |changes[i].receipts|, part)
  }

  /** The findings of gathered groups: Change by Change in plan order, each receipt by receipt, and nothing else. */
  ghost predicate GatheredTell(plan: Plan, changes: seq<ValidatedChange>, findings: seq<Finding>) {
    Composed(GatheredParts(plan, changes), |changes|, findings)
  }

  lemma {:induction false} ReceiptsTell(plan: Plan, i: nat, group: ValidatedChange, n: nat)
    requires i < |plan.changes| && n <= |group.receipts|
    requires ReceiptsFindings(plan, i, group.implementation, group.receipts[..n]).Ok?
    ensures Composed(ReceiptParts(plan, i, group), n, ReceiptsFindings(plan, i, group.implementation, group.receipts[..n]).value)
  {
    if n == 0 {
      ComposedNone(ReceiptParts(plan, i, group));
    } else {
      var rs := group.receipts[..n];
      assert rs[..n - 1] == group.receipts[..n - 1];
      ReceiptsTell(plan, i, group, n - 1);
      VerdictTells(plan, i, group, n - 1);
      ComposedMore(ReceiptParts(plan, i, group), n - 1,
        ReceiptsFindings(plan, i, group.implementation, rs[..n - 1]).value, Verdict(plan, i, group.implementation, rs[n - 1]).value);
    }
  }

  lemma VerdictTells(plan: Plan, i: nat, group: ValidatedChange, k: nat)
    requires i < |plan.changes| && k < |group.receipts| && Verdict(plan, i, group.implementation, group.receipts[k]).Ok?
    ensures ReceiptTells(plan, i, group, k, Verdict(plan, i, group.implementation, group.receipts[k]).value)
  {
    var r := group.receipts[k];
    var c := FindCheck(plan.changes[i].checks, r.checkId).value;
    FindingsReported(plan, i, group.implementation, c, r);
  }

  lemma {:induction false} AllTell(plan: Plan, changes: seq<ValidatedChange>, n: nat)
    requires n <= |changes| <= |plan.changes| && AllFindings(plan, changes[..n]).Ok?
    ensures Composed(GatheredParts(plan, changes), n, AllFindings(plan, changes[..n]).value)
  {
    if n == 0 {
      ComposedNone(GatheredParts(plan, changes));
    } else {
      var group := changes[n - 1];
      assert changes[..n][..n - 1] == changes[..n - 1] && group.receipts[..|group.receipts|] == group.receipts;
      AllTell(plan, changes, n - 1);
      ReceiptsTell(plan, n - 1, group, |group.receipts|);
      ComposedMore(GatheredParts(plan, changes), n - 1, AllFindings(plan, changes[..n - 1]).value,
        ReceiptsFindings(plan, n - 1, group.implementation, group.receipts).value);
    }
  }

  ghost predicate PhaseTells(plan: Plan, phase: Phase) {
    phase.Raised? ==> GatheredTell(plan, phase.result.changes, phase.result.findings)
  }

  lemma AdvanceTells(plan: Plan, store: Store, r: Recorder, p: Proc)
    requires PhaseTells(plan, p.phase)
    ensures PhaseTells(plan, PhaseAfter(plan, store, r, p))
  {
    var next := PhaseAfter(plan, store, r, p);
    if next.Raised? && p.phase.Gather? {
      var done := p.phase.g.done;
      assert done[..|done|] == done;
      AllTell(plan, done, |done|);
    }
  }

  lemma {:induction false} RaisedTells(plan: Plan, steps: seq<Step>, r: Recorder)
    requires r in After(plan, steps).procs
    ensures PhaseTells(plan, After(plan, steps).procs[r].phase)
  {
    var init, step := steps[..|steps| - 1], steps[|steps| - 1];
    var s := After(plan, init);
    if r in s.procs {
      RaisedTells(plan, init, r);
      AdvanceTells(plan, s.store, r, s.procs[r]);
    }
  }

  // ---- what early feedback carries ---------------------------------------------------------------

  /**
   * The result raised anywhere in any run of either pass: one group per planned Change in plan order, each with the
   * implementation its gate stored; every slow receipt stored before the gathering began; nothing not stored by its end;
   * and the findings that exactly those receipts contribute, in order.
   */
  lemma FeedbackIsFaithful(plan: Plan, mode: Mode, steps: seq<Step>, r: Recorder, i: nat)
    requires ValidPlan(plan) && Run(plan, mode, steps)
    requires r in After(plan, steps).procs && After(plan, steps).procs[r].phase.Raised? && i < |plan.changes|
    ensures var phase := After(plan, steps).procs[r].phase;
      && |phase.result.changes| == |plan.changes|
      && phase.result.status == ChangesRequested && phase.result.findings != []
      && i in phase.ended.gated
      && phase.result.changes[i].implementation == phase.ended.gated[i].implementation
      && phase.result.changes[i].implementation.change == plan.changes[i].id
      && (forall c :: c in Slows(plan, i) && (i, c.id) in phase.began.checked ==>
            phase.began.checked[(i, c.id)] in phase.result.changes[i].receipts)
      && (forall x :: x in phase.result.changes[i].receipts ==>
            x in phase.ended.gated[i].receipts || StoredSlow(plan, phase.ended, i, x))
      && Exact(plan.changes[i], phase.result.changes[i])
      && GatheredTell(plan, phase.result.changes, phase.result.findings)
  {
    var s := After(plan, steps);
    RaisedTells(plan, steps, r);
    PhaseHolds(plan, mode, steps, r);
    PhaseIsFaithful(plan, mode, s.store, s.procs[r].phase, i);
  }

  lemma PhaseHolds(plan: Plan, mode: Mode, steps: seq<Step>, r: Recorder)
    requires ValidPlan(plan) && Run(plan, mode, steps) && r in After(plan, steps).procs
    ensures PhaseOk(plan, mode, After(plan, steps).store, After(plan, steps).procs[r].phase)
  {
    RunKeeps(plan, mode, steps);
    var s := After(plan, steps);
    assert ProcOk(plan, mode, s.store, r, s.procs[r]);
  }

  lemma PhaseIsFaithful(plan: Plan, mode: Mode, store: Store, phase: Phase, i: nat)
    requires ValidPlan(plan) && PhaseOk(plan, mode, store, phase) && phase.Raised? && i < |plan.changes|
    ensures |phase.result.changes| == |plan.changes|
    ensures phase.result.status == ChangesRequested && phase.result.findings != []
    ensures i in phase.ended.gated && phase.result.changes[i].implementation == phase.ended.gated[i].implementation
    ensures phase.result.changes[i].implementation.change == plan.changes[i].id
    ensures forall c :: c in Slows(plan, i) && (i, c.id) in phase.began.checked ==>
              phase.began.checked[(i, c.id)] in phase.result.changes[i].receipts
    ensures forall x :: x in phase.result.changes[i].receipts ==>
              x in phase.ended.gated[i].receipts || StoredSlow(plan, phase.ended, i, x)
    ensures Exact(plan.changes[i], phase.result.changes[i])
  {
    FaithfulGroup(plan, mode, phase.began, phase.ended, i, phase.result.changes[i]);
  }

  ghost predicate StoredSlow(plan: Plan, store: Store, i: nat, r: Receipt)
    requires i < |plan.changes|
  {
    exists c :: c in Slows(plan, i) && (i, c.id) in store.checked && store.checked[(i, c.id)] == r
  }

  lemma FaithfulGroup(plan: Plan, mode: Mode, began: Store, ended: Store, i: nat, group: ValidatedChange)
    requires ValidPlan(plan) && StoreOk(plan, mode, ended) && Grows(began, ended) && GroupCut(plan, began, ended, i, group)
    ensures group.implementation.change == plan.changes[i].id && Exact(plan.changes[i], group)
    ensures forall c :: c in Slows(plan, i) && (i, c.id) in began.checked ==> began.checked[(i, c.id)] in group.receipts
    ensures forall x :: x in group.receipts ==> x in ended.gated[i].receipts || StoredSlow(plan, ended, i, x)
  {
    var base := ended.gated[i].receipts;
    assert GroupOk(plan, mode, ended, i, ended.gated[i]);
    forall c | c in Slows(plan, i) && (i, c.id) in began.checked ensures began.checked[(i, c.id)] in group.receipts {
      CutComplete(Slows(plan, i), i, began, ended, base, group.receipts, c);
    }
    forall x | x in group.receipts
      ensures (x in base || StoredSlow(plan, ended, i, x)) && ExactReceipt(plan.changes[i], group.implementation, x)
    {
      CutSound(Slows(plan, i), i, began, ended, base, group.receipts, x);
      if x in base {
        assert ExactReceipt(plan.changes[i], ended.gated[i].implementation, x);
      } else {
        var c :| c in Slows(plan, i) && (i, c.id) in ended.checked && ended.checked[(i, c.id)] == x;
        assert CheckedOk(plan, mode, ended, (i, c.id), ended.checked[(i, c.id)]);
        assert Verdict(plan, i, group.implementation, x).Ok?;
        assert FindCheck(plan.changes[i].checks, x.checkId).value in plan.changes[i].checks;
      }
    }
  }

  /** Each group implements its planned Change on the head of the group before it. */
  ghost predicate Stacked(plan: Plan, changes: seq<ValidatedChange>) {
    && |changes| == |plan.changes|
    && forall i {:trigger Foot(plan.base, changes, i)} :: 0 <= i < |changes| ==>
         Implements(plan.changes[i], Foot(plan.base, changes, i), changes[i].implementation)
  }

  ghost predicate SameImplementations(left: seq<ValidatedChange>, right: seq<ValidatedChange>) {
    |left| <= |right| && forall i :: 0 <= i < |left| ==> left[i].implementation == right[i].implementation
  }

  /** What the first pass raises is one linear progression from the base; a recheck raises over the refreshed history. */
  lemma FeedbackIsLinear(plan: Plan, mode: Mode, steps: seq<Step>, r: Recorder)
    requires ValidPlan(plan) && Run(plan, mode, steps)
    requires r in After(plan, steps).procs && After(plan, steps).procs[r].phase.Raised?
    ensures var changes := After(plan, steps).procs[r].phase.result.changes;
      match mode case Observe => Stacked(plan, changes) case Recheck(refreshed) => SameImplementations(changes, refreshed)
  {
    var s := After(plan, steps);
    PhaseHolds(plan, mode, steps, r);
    PhaseIsLinear(plan, mode, s.store, s.procs[r].phase);
  }

  lemma PhaseIsLinear(plan: Plan, mode: Mode, store: Store, phase: Phase)
    requires PhaseOk(plan, mode, store, phase) && phase.Raised?
    ensures match mode
      case Observe => Stacked(plan, phase.result.changes)
      case Recheck(refreshed) => SameImplementations(phase.result.changes, refreshed)
  {
    match mode
    case Observe => GatesStack(plan, phase.began, phase.ended, phase.result.changes);
    case Recheck(refreshed) => GatesAgree(plan, refreshed, phase.began, phase.ended, phase.result.changes);
  }

  lemma GatesStack(plan: Plan, began: Store, ended: Store, changes: seq<ValidatedChange>)
    requires GatesOk(plan, Observe, ended) && Faithful(plan, began, ended, changes)
    ensures Stacked(plan, changes)
  {
    forall i | 0 <= i < |changes| ensures Implements(plan.changes[i], Foot(plan.base, changes, i), changes[i].implementation) {
      assert GroupCut(plan, began, ended, i, changes[i]) && GroupOk(plan, Observe, ended, i, ended.gated[i]);
      if i > 0 { assert GroupCut(plan, began, ended, i - 1, changes[i - 1]); }
    }
  }

  lemma GatesAgree(plan: Plan, refreshed: seq<ValidatedChange>, began: Store, ended: Store, changes: seq<ValidatedChange>)
    requires GatesOk(plan, Recheck(refreshed), ended) && Faithful(plan, began, ended, changes)
    ensures SameImplementations(changes, refreshed)
  {
    forall i | 0 <= i < |changes| ensures i < |refreshed| && changes[i].implementation == refreshed[i].implementation {
      assert GroupCut(plan, began, ended, i, changes[i]) && GroupOk(plan, Recheck(refreshed), ended, i, ended.gated[i]);
    }
    if changes != [] { assert changes[|changes| - 1].implementation == refreshed[|changes| - 1].implementation; }
  }
}
