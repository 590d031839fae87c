# Verified models of the Smithers flow repository

This project states, in Dafny, what the repository's hardest code computes, and proves what it promises.

- **Coding correction** (`flows/coding`): a plan of Changes over native JJ revisions is validated, implemented atom by
  atom, fast-gated, checked slowly in parallel, and repaired in bounded rounds. `CodingSchema`, `CodingWorkflow`,
  `CodingAtoms`, `CodingCorrection`, `CodingPlanning` hold the value transformations and their loops. `CodingFeedback`
  and `CodingFeedbackSafety` hold the write-then-check protocol as a step system in which every single store access is a
  step and any interleaving, crash and retry of recorders is a run; `CodingFeedbackProgress` bounds a recorder's moves,
  `CodingFeedbackRuns` says exactly which rechecks can refuse, and `CodingScenario` spells out the inputs.
  `CodingRounds` composes all of it: every result of every pass is a well-formed history with exact evidence, and the
  round loop is proved over any environment whose passes end as passes can; `CodingPasses` runs the passes to completion.
  `CodingRecheck` ties receipts to the recheck graph, and `CodingOrder` the recorders' order to both graphs.
- **Plan graphs** (`examples`, and the two check graphs of `flows/coding`): `PlanGraph` gives the node language and its
  interleaving executions; `Trellis`, `FanOut` and `StageGraph` prove what the graphs built in it do in every execution.
- **Review scoring** (`evals/review-seeded-bugs`): `ReviewMatching`, `ReviewScore`, `ReviewBaseline`, over exact
  rationals.
- **Stateful cores**: `ProcessHarness` (one owned process), `DirectorySnapshots` (failure-atomic restore), `ExportWalk`
  (the exported-tree walk), `ReleaseVersion` (version bumps).

`Wrappers`, `Strings`, `Decimal` and `Sorting` are shared vocabulary. `dafny verify dfyconfig.toml` checks everything.

## What is assumed

- The deferred store is write-once: a write into a filled slot changes nothing. Writes and reads are atomic steps.
- Canonical digests are injective, so an input digest is modelled as the value it digests (`InputDigest.Canonical`), and
  equality of canonical JSON is equality of values.
- The native adapter, the agents, the checks and the cancellation acknowledgement may answer anything.
- `bindPlanned` is a data dependency only: a call waits for the results its payload refers to and for nothing else
  (packages/smithers/flows/plan/src/Node.ts:366-399, packages/smithers/flows/flow/src/Graph.ts:1313-1350). `andThen`
  gates the whole subtree after it.
- What the schemas demand of decoded values is a precondition: atom lists and planning history are non-empty, and the
  round bound is between 1 and 8.
- Nothing but the modelled operations writes the snapshots directory; `mkdtemp` answers unused names.
- The exported tree does not change while it is walked; `realPath` answers canonical paths.

## Where the code does not do what is expected of it

Each is proved, with the exact condition under which the expectation does hold.

- **Recheck order.** flows/coding/correction.md:87 says that fast checks still gate the next rechecked Change. The graph
  of `repairChecks` does not do that: neither the slow checks nor the next Change refer to the recorded gate. Whatever
  receipts it reuses, a recheck records its gates in plan order in every execution if and only if it has at most one
  Change (`StageGraph.RecheckInOrderExactly`; the first pass always does). So a recorder can gather before every gate is
  stored and refuse with "the implementation-ready marker has no corresponding native implementation": some run does, if
  and only if there are two or more Changes, the last gate can be passed and some slow check can report findings
  (`CodingFeedbackRuns.RecheckMissesExactly`). `CodingScenario.RepairedRecheckMisses` gives the plan, the previous result,
  the edit and the restacked read of one such repair. In the first pass that refusal is unreachable.
- **Early feedback.** The fast gate accepts a passed receipt whose findings blame an unknown or later Change or cite
  another commit; gathering refuses it. So a recorder that gathers raises early feedback if and only if, at its last
  read, every gate was stored and every fast receipt behind them attributes its findings properly (`GatherOutcome`; in
  the first pass the gates always are, `FirstPassOutcome`). `CodingScenario.BlamesNobodyRefuses` gives the plan, the
  receipts and the run of a refusal.
- **Hyphen-first prereleases.** `current.split("-", 2)` yields an empty second piece for a prerelease that starts with a
  hyphen, so 1.0.0--alpha counts as a release and its patch bump is 1.0.1. A bump is the least fitting release above the
  current version if and only if the version is not such a prerelease on a core that already fits the bump.
- **Bumps that are not text.** A bump given as `["major"]` renders as its name and passes the name check, but no branch
  compares equal to it, so it is applied as a patch (`ListedBumpIsAPatch`, `AnswerIsLeastExactly`).
- **Repeated native identities.** Atom-by-atom implementation fences each atom against the one directly below it only, so
  an adapter can answer with an identity used further down. Every successful implementation passes the fast gate's
  revision guards, whatever the adapter answers, if and only if the plan leaves no room for that: one atom; or two,
  the first new and the second fixed to another identity than the parent's; or only fixed identities, distinct from each
  other and the parent's; or identities no adapter can satisfy (`AlwaysLinearExactly`). `SecondAtomRepeatsTheParent` gives the answers for two new atoms.

## Model

| member | source | states |
|---|---|---|
| CodingSchema.SameRevision | flows/coding/schema.ts:149-152 | the field-by-field comparison is equality of revisions |
| CodingSchema.SameCode | flows/coding/correction.ts:64-66 | true exactly for revisions equal up to the operation ID |
| CodingSchema.MatchesExactly | flows/coding/schema.ts:140-147 | a matching receipt is determined by implementation and check up to status, evidence and findings |
| CodingSchema.ValidatePlan | flows/coding/schema.ts:118-138 | accepts exactly plans with distinct Change IDs, distinct checks and both required tiers per Change, and no native change owned twice; each of the four refusals names a fault that is there |
| CodingSchema.CheckFault | flows/coding/schema.ts:123-131 | finds no fault exactly in Changes with distinct check IDs and a required check of both tiers |
| CodingSchema.ExistingIdsAppend | flows/coding/schema.ts:132-136 | native owners of concatenated atom lists are the concatenated owners |
| CodingWorkflow.ReceiptFindings | flows/coding/workflow.ts:63-79 | succeeds exactly on a planned check with an exact, properly attributed receipt; a required check that did not pass always yields a finding |
| CodingWorkflow.FindingsReported | flows/coding/workflow.ts:76-78 | an accepted receipt contributes its own findings, or for a required check that did not pass and lists none exactly one, blaming the checked Change at its head with the target and status |
| CodingWorkflow.AttributedExactly | flows/coding/workflow.ts:70-75 | findings are attributed exactly when each cites the checked commit and is owned by this Change or an earlier one |
| CodingWorkflow.InTier | flows/coding/workflow.ts:38-39 | filtering by tier keeps exactly the checks of that tier |
| CodingWorkflow.TierDistributes | flows/coding/workflow.ts:38-43 | filtering by tier keeps order and repetitions |
| CodingWorkflow.FastGate | flows/coding/workflow.ts:85-114 | accepts exactly one linear, identity-preserving implementation on the given parent whose fast checks are all exact and whose required ones passed; refuses as stale exactly on the revisions, and otherwise names a real fault of a fast check |
| CodingWorkflow.Linear | flows/coding/workflow.ts:91-103 | the atom walk accepts exactly chained, distinct, identity-keeping atoms |
| CodingWorkflow.GatedReceiptsExact | flows/coding/workflow.ts:104-113 | each receipt a gate passes on exactly matches the planned fast check at its position |
| CodingWorkflow.Assess | flows/coding/workflow.ts:115-138 | accepts exactly groups that are the planned Changes with unique native owners and judgeable evidence; returns them with exactly the findings their first receipts contribute, Change by Change and check by check; validated if and only if every non-delivery check is exact and clean |
| CodingWorkflow.GroupFindings | flows/coding/workflow.ts:126-135 | succeeds exactly when every non-delivery check can be judged, with what each contributes in plan order, and empty exactly when the group is clean |
| CodingAtoms.ReadParentExactly | flows/coding/atoms.ts:47-54 | reading the parent succeeds exactly when its first entry is resolved with unchanged code, and gives that entry |
| CodingAtoms.EnterExactly | flows/coding/atoms.ts:58-71 | exactly when an atom is entered and by which operation: creating with its message on the parent just read, or editing its own change shown directly above |
| CodingAtoms.Enter | flows/coding/atoms.ts:58-71 | the entering operation creates on the exact parent or edits the atom's own change directly above it, fenced by the operation just read |
| CodingAtoms.MutationExactly | flows/coding/atoms.ts:72-86 | exactly when a mutation is prepared and which: of the working copy, the atom directly above its unchanged parent, described with its message only if the code is the captured one |
| CodingAtoms.Observe | flows/coding/atoms.ts:87-95 | an answer is taken exactly when it is resolved, has the planned parent only, is a different change from it, keeps an expected identity and, for a new atom, was accepted |
| CodingAtoms.AtomStaysFenced | flows/coding/atoms.ts:98-115 | whatever the adapter answers, every operation an atom sends is fenced, and a success sent exactly three, kept parent and identity, and was accepted if new |
| CodingAtoms.AtomFollowsProtocol | flows/coding/atoms.ts:98-115 | whatever the adapter answers, an atom enters, then after a taken answer and the edit snapshots, then describes the captured code, each fenced by its own read |
| CodingAtoms.AtomDelivers | flows/coding/atoms.ts:106-112 | a successful atom is the revision last described with the agent's own report |
| CodingAtoms.AtomsSound | flows/coding/atoms.ts:119-125 | any successful suffix of the recursion is one chained revision per remaining atom with identities kept |
| CodingAtoms.ImplementAtomsSound | flows/coding/atoms.ts:128-144 | a success has exactly one revision per planned atom, the one last described, chained from the given parent, identities kept, new ones accepted, head the last atom, and the reported read and written files each once in order of first report |
| CodingAtoms.ImplementedFiles | flows/coding/atoms.ts:141-141 | a file is listed as read, or as written, exactly when some atom's report lists it so |
| CodingAtoms.AlwaysLinearExactly | flows/coding/workflow.ts:85-103 | every successful implementation passes the gate's revision guards whatever the adapter answers, if and only if the planned identities force distinctness or no adapter can satisfy them |
| CodingAtoms.Realizable | flows/coding/atoms.ts:87-144 | any identities that respect the plan and differ from the one directly below are answered by some adapter |
| CodingAtoms.ForcedIsLinear | flows/coding/atoms.ts:128-144 | where the plan forces distinct identities every successful implementation passes the revision guards |
| CodingAtoms.SecondAtomRepeatsTheParent | flows/coding/atoms.ts:87-95 | adapter answers for which two new atoms succeed, repeat the parent's identity and fail the gate |
| CodingAtoms.SingleAtomAlwaysLinear | flows/coding/atoms.ts:128-144 | a one-atom implementation always passes the gate's revision guards |
| CodingCorrection.ResolveExactly | flows/coding/correction.ts:68-72 | resolution succeeds exactly when one entry, and only one, names the change and it is not conflicted |
| CodingCorrection.Current | flows/coding/correction.ts:91-91 | the revision kept for an atom has its identity and the freshly read code, and is the known one where code is unchanged |
| CodingCorrection.EarliestOwner | flows/coding/correction.ts:177-178 | the chosen owner is the earliest blamed Change, and unknown owners are never hidden by known ones |
| CodingCorrection.PrepareContext | flows/coding/correction.ts:175-185 | a context names the earliest blamed Change and its implementation of a complete changes-requested result |
| CodingCorrection.ContextExactly | flows/coding/correction.ts:175-185 | a context exists exactly when the result asks for changes with findings of planned owners and nothing known moved; it is about the first Change any finding blames, with exactly that Change's findings |
| CodingCorrection.OwnedByDistributes | flows/coding/correction.ts:184-184 | selecting an owner's findings keeps order and repetitions |
| CodingCorrection.PrepareRepair | flows/coding/correction.ts:186-193 | succeeds exactly when the selection names an atom at a planned position; then repairs the first such atom: its identity, planned message and files, planned intent with the correction appended, on the revision directly below it |
| CodingCorrection.Reconstruct | flows/coding/correction.ts:75-111 | succeeds if and only if base, edit guards, edited head and every group restack; then returns the rebuilt group at each position; every refusal is a stale revision |
| CodingCorrection.EditPasses | flows/coding/correction.ts:78-82 | the guards pass exactly one-atom edits of the owner on the prepared parent that keep the selected identity |
| CodingCorrection.Thread | flows/coding/correction.ts:93-96 | the threaded parent walk succeeds exactly on a chain and ends at its tip |
| CodingCorrection.EarlyReturnAgrees | flows/coding/correction.ts:97-109 | below the repair the early return equals what the general path would give |
| CodingCorrection.ReconstructionIsLinear | flows/coding/correction.ts:75-111 | a successful rebuild of a linear progression is linear: single parents from base to tip, each group on the head before it |
| CodingCorrection.ReconstructionKeepsIdentities | flows/coding/correction.ts:85-110 | same identities in the same order, everything before the repaired atom unchanged, the repaired atom is exactly the edited code |
| CodingCorrection.RebuiltFiles | flows/coding/correction.ts:104-106 | a rebuilt group keeps its files, joined at the repair by the edit's, reads with reads and writes with writes, each once in order |
| CodingCorrection.ReceiptBindsImplementation | flows/coding/schema.ts:140-147 | a receipt cannot match two different implementations or checks |
| CodingCorrection.NoStaleEvidence | flows/coding/correction.ts:107-109 | kept receipts are exact; a moved implementation keeps none; no receipt that would still match is dropped |
| CodingCorrection.RecheckRunsExactlyTheMissing | flows/coding/correction.ts:118-124 | after a repair a check runs if and only if no earlier receipt exists for the same exact input; a reused one is the first exact one, and one that runs gets the group's implementation |
| CodingRecheck.RecheckCallsExactlyTheMissing | flows/coding/correction.ts:113-129 | after a repair the calls of the recheck graph are exactly the planned checks without a previous receipt over the same input |
| CodingRecheck.OnlyMissingStart | flows/coding/correction.ts:118-124 | in every execution each check that starts is a planned one without a saved receipt |
| CodingCorrection.PreparedRepairPassesGuards | flows/coding/correction.ts:78-82 | whatever the adapter answers, a prepared repair implemented atom by atom passes every guard on the edit |
| CodingFeedback.CutSound | flows/coding/feedback.ts:51-56 | the gathering reads collect nothing but the gate's receipts and stored slow receipts |
| CodingFeedback.CutComplete | flows/coding/feedback.ts:51-56 | the gathering reads collect every slow receipt stored before they began |
| CodingFeedbackSafety.RunKeeps | flows/coding/feedback.ts:118-132 | the invariant of store and recorders holds at the end of every run of either pass |
| CodingFeedbackSafety.ReadyMeansAll | flows/coding/feedback.ts:118-123 | in the first pass, and for a single Change, the ready marker means every gate is stored |
| CodingFeedbackSafety.PairNeverMissed | flows/coding/feedback.ts:37-70 | in every interleaving, when both markers are stored and the recorders ended, some recorder raised or refused what it gathered, and the refusal is one of the known ones |
| CodingFeedbackSafety.GatherOutcome | flows/coding/feedback.ts:45-69 | in either pass a gathering recorder raises if and only if at its last read every gate was stored and all fast receipts are attributed; otherwise it refuses for exactly that reason |
| CodingFeedbackSafety.RecheckOutcome | flows/coding/correction.ts:113-129 | the same for the recheck, where the missing-implementation refusal needs two Changes |
| CodingFeedbackSafety.FirstPassOutcome | flows/coding/feedback.ts:38-70 | a gathering first-pass recorder raises if and only if all fast receipts are attributed; missing-implementation, reordering, unplanned-check and missing-trigger refusals are unreachable |
| CodingFeedbackSafety.FirstPassRaises | flows/coding/feedback.ts:37-70 | with attributed fast receipts some recorder of every ended first pass with both markers raises early feedback |
| CodingFeedbackRuns.MisattributionRefuses | flows/coding/feedback.ts:58-65 | a run in which an accepted but misattributed fast receipt turns early feedback into a refusal |
| CodingFeedbackSafety.FeedbackIsFaithful | flows/coding/feedback.ts:45-69 | the raised result has one group per planned Change in order, every slow receipt stored before gathering began, none not stored by its end, all exact, and exactly the findings its receipts contribute, in plan and receipt order |
| CodingFeedbackSafety.FeedbackIsLinear | flows/coding/feedback.ts:74-89 | a first-pass result is one linear progression from the base; a recheck raises over the refreshed implementations |
| CodingFeedbackRuns.RecheckMissesExactly | flows/coding/correction.ts:113-129 | some recheck run ends in the missing-implementation refusal if and only if there are two Changes, the last gate can be passed and some slow check can report findings |
| CodingFeedbackRuns.RecheckCanMissAnImplementation | flows/coding/correction.ts:125-127 | the run: the last gate marks, a slow finding gathers, the first gate is missing |
| CodingScenario.BlamesNobodyRefuses | flows/coding/feedback.ts:58-65 | a concrete plan, receipts and run in which a misattributed fast receipt turns early feedback into a refusal |
| CodingScenario.RepairedRecheckMisses | flows/coding/correction.ts:75-129 | a concrete plan, well-formed previous result and edit whose reconstruction is rechecked in a run that misses an implementation |
| CodingFeedbackRuns.RetryIsHarmless | flows/coding/feedback.ts:29-36 | in every run, a recorder that crashes after its writes and is retried repeats them without changing the store or any other recorder |
| CodingFeedbackProgress.RecordersEnd | flows/coding/feedback.ts:38-70 | a recorder that is never restarted ends within a number of moves computed from the plan, and can move until then |
| CodingOrder.StagesStartDue | flows/coding/feedback.ts:74-89 | whenever an execution of the first pass can start a gate or slow record, the gates that the recorder step system waits for have returned |
| CodingOrder.RecheckStartsDue | flows/coding/correction.ts:113-129 | an execution of a recheck starts only planned records, which is all its recorders wait for |
| CodingOrder.RecheckDueStarts | flows/coding/correction.ts:125-128 | a planned gate of a recheck can be recorded once its own fast gate is through, whatever the others did |
| CodingRounds.FirstPassWellFormed | flows/coding/feedback.ts:92-97 | however the first pass ends with a result, it is a linear history over the planned Changes with exact evidence |
| CodingRounds.RepairPassWellFormed | flows/coding/correction.ts:131-151 | however a repair pass ends with a result, it is well formed again over the same native identities in the same order |
| CodingPasses.Stage | flows/coding/feedback.ts:77-87 | one Change succeeds exactly when its gate accepts and every slow record does, and gives its implementation with exactly the fast receipts and then the slow ones |
| CodingPasses.Stages | flows/coding/feedback.ts:74-89 | the recursion completes exactly when every Change is staged on the head of the one before it, and returns the answered groups |
| CodingPasses.FirstPass | flows/coding/feedback.ts:92-97 | a first pass completes exactly on a valid plan whose answered groups are all staged and assessable; its result carries those groups and is one the round loop allows for |
| CodingPasses.RecheckPass | flows/coding/correction.ts:113-151 | a recheck completes exactly when the refreshed groups, each check given its first saved exact receipt or else what it returned, are all staged on their own parents and assessable; its result is that one and is one the round loop allows for |
| CodingRounds.RunRound | flows/coding/correction.ts:206-227 | no outcome exactly when the pass or its acknowledgement was interrupted, blocked exactly when the pass failed or was not stopped, and the pass's own result whenever it has one |
| CodingRounds.PassKeeps | flows/coding/correction.ts:206-213 | from any legal cursor, a pass result is well formed, keeps identities, and is trustworthy if validated |
| CodingRounds.FinishReports | flows/coding/correction.ts:174-174 | the finished status is defined by block or result, and a blocked finish without a result keeps the last known one |
| CodingRounds.CorrectPlan | flows/coding/correction.ts:155-174 | every run ends within 1 to maxRounds rounds, each round but the last ending unblocked with changes requested and handing exactly its result on; the answer follows from how the last pass ended; every previous result is well formed over fixed identities; validated means trustworthy; a plan that validation refuses is blocked in round one without a result |
| CodingRounds.AnswerFromLastPass | flows/coding/correction.ts:157-174 | the answer is validated exactly when the last pass completed validated, blocked exactly when it failed or was not stopped, and otherwise the rounds are spent |
| CodingPlanning.HistoryLinear | flows/coding/planning.ts:109-116 | accepts exactly a unique single-parent chain |
| CodingPlanning.HistoryIsChain | flows/coding/planning.ts:109-116 | an accepted history is one chain of single parents over distinct identities |
| CodingPlanning.FilePathExactly | flows/coding/planning.ts:104-105 | the accepted paths are exactly names joined by slashes, at most 4096 characters, no name empty, dotted, of version-control metadata in any case, or with a backslash or NUL |
| CodingPlanning.BaseIndex | flows/coding/planning.ts:118-119 | the first position of the proposed base, or none |
| CodingPlanning.BindAtoms | flows/coding/planning.ts:126-133 | success means valid paths and existing atoms followed only by new ones; each refusal names its fault |
| CodingPlanning.BindChanges | flows/coding/planning.ts:125-143 | success binds every Change to configured checks and the flattened atoms retain exactly the collected identities |
| CodingPlanning.BoundChecksValid | flows/coding/planning.ts:137-141 | a bound Change passes validation exactly when the draft selects distinct checks and both required tiers |
| CodingPlanning.BoundPlanValid | flows/coding/planning.ts:144-151 | the native owners of a bound plan are always distinct, so validation can fail only on Change IDs or checks |
| CodingPlanning.Finalize | flows/coding/planning.ts:108-153 | accepts exactly the acceptable drafts; every field of the plan is the drafted or the measured one and the plan is valid; faults of the measurements are reported first and in order; the duplicate-native-owner refusal is unreachable |
| Strings.SplitJoins | flows/coding/planning.ts:105-105 | splitting a path loses nothing and leaves no separator in a part |
| Trellis.EvalLowered | examples/src/33-delegation-trellis.ts:56-88 | the lowered graph's value is the plan's leaf answers in plan order, available exactly when all leaves finished |
| Trellis.EnabledLowered | examples/src/33-delegation-trellis.ts:73-86 | the graph lets a call start exactly when the plan makes its leaf ready |
| Trellis.CallsAreLeaves | examples/src/33-delegation-trellis.ts:132-134 | the graph's calls are the plan's leaves, each once, in order |
| Trellis.OwnPaths | packages/smithers/flows/patterns/src/Trellis.ts:165-180 | no two leaves share a plan path |
| Trellis.LeafLeadsBack | examples/src/33-delegation-trellis.ts:64-75 | a leaf's path spells the kind and index of every turn that leads to its agent |
| Trellis.AgentIsLeaf | packages/smithers/flows/patterns/src/Trellis.ts:165-180 | every agent the plan leads to is a leaf under exactly that path |
| Trellis.SequencesAreRespected | examples/src/33-delegation-trellis.ts:77-82 | in every execution only leaves start, and a leaf of a later sequence member only after all leaves of earlier members finished |
| Trellis.OutputFollowsPlan | examples/src/33-delegation-trellis.ts:56-88 | in every execution the output is the leaf results in plan order |
| Trellis.NeverStuck | examples/src/33-delegation-trellis.ts:56-88 | with nothing running and work left, some leaf can start |
| FanOut.OrderIsStable | examples/src/16-fan-out-fan-in.ts:99-102 | the order is every check once, by priority and then declaration |
| FanOut.Batches | examples/src/16-fan-out-fan-in.ts:92-108 | refuses exactly bad bounds; otherwise non-empty groups of at most the bound, all but the last full, whose concatenation is the order |
| FanOut.EnabledStage | examples/src/16-fan-out-fan-in.ts:127-155 | a check can start exactly when the batch before it has settled; the collector exactly when all have |
| FanOut.WholeBatchesFirst | examples/src/16-fan-out-fan-in.ts:142-154 | in every execution a started check found every earlier batch wholly settled |
| FanOut.BoundedInFlight | examples/src/16-fan-out-fan-in.ts:126-157 | at every moment of every execution at most the bound are in flight |
| FanOut.BatchedGateIsBounded | examples/src/16-fan-out-fan-in.ts:110-157 | grouping and staging together keep the declared bound |
| StageGraph.StagesNeed | flows/coding/feedback.ts:74-89 | nothing in the first pass can start before what it needs has finished: a fast gate needs its implementation and all its fast checks |
| StageGraph.StagesSites | flows/coding/feedback.ts:74-89 | the calls of the first pass are exactly the planned ones |
| StageGraph.GatesInOrder | flows/coding/feedback.ts:77-86 | in every execution of the first pass gates are recorded in plan order |
| StageGraph.SlowAfterGate | flows/coding/feedback.ts:82-85 | a slow record follows its own gate's record and its check |
| StageGraph.RecheckGatesIndependent | flows/coding/correction.ts:125-128 | in the recheck a gate can be recorded as soon as its own fast gate finished, whatever the others did |
| StageGraph.StagesInOrder | flows/coding/feedback.ts:74-89 | every execution of the first pass records its gates in plan order |
| StageGraph.LastGateFirst | flows/coding/correction.ts:125-128 | whatever receipts are saved, an execution of the recheck that records the last gate and no other |
| StageGraph.RecheckInOrderExactly | flows/coding/correction.ts:113-129 | every execution of a recheck records its gates in plan order if and only if it has at most one Change |
| StageGraph.RecheckSites | flows/coding/correction.ts:113-129 | the calls of the recheck graph: all gates and records, and exactly the checks that are not saved |
| ReviewMatching.NormalizePath | evals/review-seeded-bugs/score.ts:86-90 | the result is the slashed path without its leading "./" pairs, all of them and nothing else |
| ReviewMatching.StrippedExactly | evals/review-seeded-bugs/score.ts:88-88 | what is left after stripping is the only suffix after whole pairs that does not start with another |
| ReviewMatching.NormalizedTwice | evals/review-seeded-bugs/score.ts:86-90 | normalizing is idempotent |
| ReviewMatching.Candidates | evals/review-seeded-bugs/score.ts:113-134 | the candidates are exactly the bug and finding pairs in one file within the tolerance |
| ReviewMatching.CandidateExactly | evals/review-seeded-bugs/score.ts:92-133 | the candidates from the fields alone: same normalized file, the positive start line or else the positive end line, its signed offset, within the tolerance |
| ReviewMatching.EndLineIsIgnored | evals/review-seeded-bugs/score.ts:92-96 | the end line of a finding with a positive start line changes neither candidates nor matching |
| ReviewMatching.ExactLineIsCandidate | evals/review-seeded-bugs/score.ts:117-133 | a finding that starts on the bug's line in its file is a candidate at distance zero |
| ReviewMatching.EndLineTakesPart | evals/review-seeded-bugs/score.ts:92-96 | without a positive start line a finding takes part through its positive end line, exactly within the tolerance |
| ReviewMatching.LinelessIsExtra | evals/review-seeded-bugs/score.ts:117-119 | a finding without a positive line is always extra |
| ReviewMatching.PreferredIsMatched | evals/review-seeded-bugs/score.ts:136-151 | a candidate nearer than all it competes with, ties going to the earlier finding and label, is matched |
| ReviewMatching.Greedy | evals/review-seeded-bugs/score.ts:143-151 | the loop over ordered candidates yields a matching no candidate blocks |
| ReviewMatching.StableIsUnique | evals/review-seeded-bugs/score.ts:136-151 | over any set of candidates there is only one matching without a blocking candidate |
| ReviewMatching.StableIsMaximal | evals/review-seeded-bugs/score.ts:143-151 | no candidate can be added to it |
| ReviewMatching.StableIsHalfOptimal | evals/review-seeded-bugs/score.ts:103-159 | no valid matching within the tolerance is more than twice its size |
| ReviewMatching.LeftoversExactly | evals/review-seeded-bugs/score.ts:155-158 | the reported leftovers are exactly the unused bugs and the unused findings |
| ReviewMatching.LeftoversAscend | evals/review-seeded-bugs/score.ts:155-158 | leftovers are listed in ascending order |
| ReviewMatching.MatchFindings | evals/review-seeded-bugs/score.ts:103-159 | returns the only matching without a blocking candidate within the tolerance, by label; matched plus missed are the bugs, matched plus extra the findings |
| ReviewScore.ScoreFixture | evals/review-seeded-bugs/score.ts:182-234 | each fixture's row balances and counts its stable matching, in all three cases |
| ReviewScore.ScoreRows | evals/review-seeded-bugs/score.ts:182-234 | running counters equal the column sums of the rows, and the unknown counter the findings of fixtures without labels |
| ReviewScore.BugsPartition | evals/review-seeded-bugs/score.ts:168-173 | summing planted bugs per fixture counts every label once |
| ReviewScore.FixtureDistributes | evals/review-seeded-bugs/score.ts:168-171 | grouping labels by fixture keeps order and repetitions |
| ReviewScore.F1Exact | evals/review-seeded-bugs/score.ts:245-261 | over exact rationals F1 is 2TP/(2TP+FP+FN), and 1 with neither bugs nor findings |
| ReviewScore.Rate | evals/review-seeded-bugs/score.ts:245-261 | recall, precision and F1 are the exact rates of the counts |
| ReviewScore.ScoreCorpus | evals/review-seeded-bugs/score.ts:161-281 | TP+FN are the planted bugs, TP+FP the findings, rows sum to the totals, rates are exact |
| ReviewBaseline.RecordCountsAgree | evals/review-seeded-bugs/baseline.ts:107-126 | anchored bugs number the matches, unanchored bugs the misses, anchors the planted bugs |
| ReviewBaseline.BaselineFrom | evals/review-seeded-bugs/baseline.ts:89-129 | one record per run with its score row's counts and one anchor per planted bug in label order, carrying its label and exactly the matched finding's line and severity; zeros and no anchors for an unscored fixture |
| ReviewBaseline.RecordedExactly | evals/review-seeded-bugs/baseline.ts:107-126 | a record taken from a row and its matching has those counts and anchors |
| ReviewBaseline.AnchorDrift | evals/review-seeded-bugs/baseline.ts:177-206 | empty exactly on equal anchors, and otherwise exactly the message of each anchor's changed parts |
| ReviewBaseline.RecordDrift | evals/review-seeded-bugs/baseline.ts:150-162 | empty exactly on equal records, and otherwise one message per changed field and changed part of an anchor |
| ReviewBaseline.DriftBetween | evals/review-seeded-bugs/baseline.ts:137-166 | empty exactly when versions agree and the run reproduces the baseline's last record per fixture, each once; otherwise exactly the messages for other versions, unknown or repeated fixtures, changes, and fixtures not run |
| ReviewBaseline.Missing | evals/review-seeded-bugs/baseline.ts:164-164 | one message per fixture left over, for exactly those |
| ReviewBaseline.ReproducesUpToOrder | evals/review-seeded-bugs/baseline.ts:137-166 | with distinct baseline fixtures, reproducing is having the same records up to order |
| ProcessHarness.SettlesOnce | factory/flows/harness.ts:91-188 | in every order of events one settlement, by finish or interruption but never both, each completed at most once; the tail is the last 4000 characters of all output |
| ProcessHarness.NothingAfterwards | factory/flows/harness.ts:105-188 | once a settlement is over no continuation sends a signal, changes the result or times out |
| ProcessHarness.ZeroMeansClean | factory/flows/harness.ts:105-159 | exit code 0 is reported if and only if the child closed with 0 before any settlement or timeout, with the marker in the retained tail and a passing validation |
| ProcessHarness.FirstSettlementDecides | factory/flows/harness.ts:105-188 | the first error, close or interruption settles for good: no result, -1 with the message, or the close's code, -1 after a timeout, -2 without the marker, -3 when validation objects, over the retained tail |
| ProcessHarness.TailIsLast | factory/flows/harness.ts:94-104 | the retained tail is the last 4000 characters of all output |
| ProcessHarness.SignalPattern | factory/flows/harness.ts:147-182 | in every run a kill follows a request to stop, at most one pair for the timeout and one for the interruption, in that order |
| ProcessHarness.ProcessRun.constructor | factory/flows/harness.ts:91-93 | a started run is unsettled, has no output and has its timeout armed |
| ProcessHarness.ProcessRun.OnData | factory/flows/harness.ts:94-104 | output is retained as its last 4000 characters |
| ProcessHarness.ProcessRun.OnError | factory/flows/harness.ts:153-155 | an error settles with -1 and its message |
| ProcessHarness.ProcessRun.OnClose | factory/flows/harness.ts:156-159 | a close settles with its code, or -1 after a timeout, and completes a hooked interruption |
| ProcessHarness.ProcessRun.OnTimeout | factory/flows/harness.ts:147-152 | a timeout terminates the group and arms the escalation if the signal went out |
| ProcessHarness.ProcessRun.OnEscalation | factory/flows/harness.ts:151-151 | an escalation kills once |
| ProcessHarness.ProcessRun.OnInterrupt | factory/flows/harness.ts:160-182 | an interruption of a settled run completes at once; otherwise it takes the settlement |
| ProcessHarness.ProcessRun.OnKill | factory/flows/harness.ts:181-181 | the armed kill fires once |
| ProcessHarness.ProcessRun.OnBound | factory/flows/harness.ts:182-182 | the bound completes an interruption that never closed |
| ProcessHarness.ProcessRun.OnFinishLogged | factory/flows/harness.ts:114-144 | the caller resumes once, with the decided result |
| DirectorySnapshots.DirectoryJj.Snapshot | examples/src/21-cache-and-compensation.ts:81-98 | a success publishes exactly the workspace under a fresh ID; a failure adds at most the remains of its own staging |
| DirectorySnapshots.DirectoryJj.Publish | examples/src/21-cache-and-compensation.ts:87-93 | publication happens exactly when copy, fresh ID and rename succeed; otherwise only staging differs |
| DirectorySnapshots.DirectoryJj.Restore | examples/src/21-cache-and-compensation.ts:99-136 | the whole new state for every fault pattern, and success exactly when the copy was swapped in |
| DirectorySnapshots.DirectoryJj.Swap | examples/src/21-cache-and-compensation.ts:108-125 | the workspace is the source, the original, or missing with the original in the kept backup |
| DirectorySnapshots.RestoreIsAtomic | examples/src/21-cache-and-compensation.ts:99-136 | after any faults the workspace is the snapshot (exactly on success) or the original, or the original is intact in the retained backup |
| DirectorySnapshots.OperationsExactly | examples/src/21-cache-and-compensation.ts:81-136 | exactly which faults make a snapshot or a restore succeed, not begin, or strand the original |
| DirectorySnapshots.NothingIsLost | examples/src/21-cache-and-compensation.ts:81-136 | over any history published snapshots never change and retained backups are never deleted |
| DirectorySnapshots.LabelsFollowTheLayer | examples/src/21-cache-and-compensation.ts:77-95 | what a layer remembers of an ID is what it was told, until a new layer takes over |
| DirectorySnapshots.RestoreGivesTheCapturedTree | examples/src/21-cache-and-compensation.ts:81-136 | over any history a successful restore gives exactly the tree captured under that ID, and logs its description, or the bare ID to a later layer |
| DirectorySnapshots.StrandedOriginalSurvives | examples/src/21-cache-and-compensation.ts:116-135 | a stranded original stays intact in its backup however the history continues |
| DirectorySnapshots.PublishedAreWhole | examples/src/21-cache-and-compensation.ts:86-94 | every snapshot published in a history is a workspace that history had, never a partial copy |
| ExportWalk.ContainedExactly | flows/coding/checks.ts:80-83 | the three tests on the relative path hold exactly for the root and paths below it |
| ExportWalk.ReadEntries | flows/coding/checks.ts:117-122 | a directory is accepted exactly with its entries resolved inside, and its directory targets are exactly those found |
| ExportWalk.Walk | flows/coding/checks.ts:112-124 | ends on every finite link graph, accepts if and only if every reachable directory is readable and holds only entries resolving inside the root, and every refusal names a real fault |
| ExportWalk.AcceptedNeverLeaves | flows/coding/checks.ts:109-124 | in an accepted export no chain of names opens anything outside the tree |
| ExportWalk.ReachableIsOpened | flows/coding/checks.ts:112-124 | every reachable directory is opened by some chain of names |
| ReleaseVersion.CheckVersion | flows/release-support/input.ts:4-10 | accepts exactly the texts some well-formed version prints as |
| ReleaseVersion.LeadingZeroExactly | flows/release-support/input.ts:6-8 | the refused identifiers are exactly the numeric ones that a number is not printed as |
| ReleaseVersion.PrintParses | flows/release-support/input.ts:5-5 | printing then reading gives the version back |
| ReleaseVersion.ParsePrints | flows/release-support/input.ts:5-5 | reading then printing gives the text back |
| ReleaseVersion.PiecesOf | flows/release-support/input.ts:26-27 | the two hyphen-separated pieces are the core and the prerelease up to its own first hyphen |
| ReleaseVersion.RequestedVersion | flows/release-support/input.ts:20-31 | the answer or refusal for every combination of fields, and every chosen version is a version |
| ReleaseVersion.PromisedIsLeast | flows/release-support/input.ts:19-31 | the least fitting release above a version, per section 11 of Semantic Versioning 2.0.0, is unique and is the promised one |
| ReleaseVersion.BumpIsLeastExactly | flows/release-support/input.ts:26-30 | a text bump is that least release if and only if the version is not a hyphen-first prerelease on a fitting core |
| ReleaseVersion.BumpRises | flows/release-support/input.ts:26-30 | every bump is a fitting release strictly above the current version |
| ReleaseVersion.AnswerIsLeastExactly | flows/release-support/input.ts:20-31 | for every named bump, text or not, exactly when the printed answer is the least fitting release |
| ReleaseVersion.HyphenFirstSkips | flows/release-support/input.ts:26-30 | a patch bump skips the release of every hyphen-first prerelease |
| ReleaseVersion.AlphaIsSkipped | flows/release-support/input.ts:26-30 | 1.0.0--alpha bumps to 1.0.1 although 1.0.0 is the least release above it |
| ReleaseVersion.ListedBumpIsAPatch | flows/release-support/input.ts:24-30 | a bump that is not text but renders as a bump name is applied as a patch |

## Left out

- The gathering loop of `interruptOnFeedback` is a step system and not a method with a loop, because other recorders write between its reads.
- A crashed recorder may restart any number of times: only recorders that are never restarted are shown to end.
- Slow checks and native calls that never return are runs that do not continue; no timing is modelled.
- `ReturnTip` and the working-copy guard of `Refresh` (flows/coding/correction.ts:194-205) only add refusals before a rebuilt history is used.
- Native request IDs, retry policy, the journal, the cancellation polling loop and the durable engine.
- `Trellis.validate` and its refusals: lowering is proved for every plan.
- Record key order: JavaScript moves integer-like keys first, so a check ID or name that is an array index can reorder receipts; insertion order is modelled.
- Prototype keys such as `__proto__` used as check IDs or fixture names.
- A label is identified by its fixture and position, where the source keys matches by object identity.
- `localeCompare` order of fixtures and records: any enumeration without repetition is allowed.
- Floating-point rounding, mean offsets, tight tolerance and severity calibration (evals/review-seeded-bugs/score.ts:239-277).
- Message texts, log contents, manifests, process spawning and `signalProcessTree`'s platform cases; a signal is delivered or throws.
- A `stat` that fails on an entry whose real path resolved (flows/coding/checks.ts:121): a resolved entry is a directory or it is not.
- A removal of the staging directory that throws after the publishing rename (examples/src/21-cache-and-compensation.ts:92-94): forced removal of a missing path does nothing.
- Paths inside a change ID given to `restore` (such as `..`): IDs are names in the snapshots directory.
- `describe` of snapshot messages: a description is a parameter.
- The bounded `capture` of check output and the check execution around the exported-tree walk.
- `contentInput` and `releaseInput` field checks beyond the version: each is one comparison.
- A non-text `version` field is refused and never rendered; versions of a width beyond memory are not considered.
