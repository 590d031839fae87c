/** evals/review-seeded-bugs/baseline.ts: the recorded outcome of a run, and the drift that gates a re-run. */
module ReviewBaseline {
  import opened Wrappers
  import Sorting
  import opened ReviewMatching
  import opened ReviewScore

  datatype Anchor = Anchor(
    path: string, line: int, anchoredLine: Option<int>, severity: Option<Severity>, expectedSeverity: Severity)
  datatype Record = Record(
    fixture: string, status: string, matches: nat, falsePositives: nat, falseNegatives: nat, anchors: seq<Anchor>)
  datatype Baseline = Baseline(version: int, records: seq<Record>)

  const BASELINE_VERSION: int := 2

  // ---- recording a run ---------------------------------------------------------------------------

  /** The match that took label `l`, if any. */
  function MatchOf(matched: seq<Candidate>, l: nat): (r: Option<Candidate>)
    ensures r.Some? ==> r.value in matched && r.value.labelIndex == l
    ensures r.None? ==> forall c :: c in matched ==> c.labelIndex != l
  {
    if matched == [] then None
    else if matched[|matched| - 1].labelIndex == l then Some(matched[|matched| - 1])
    else MatchOf(matched[..|matched| - 1], l)
  }

  predicate InRange(matched: seq<Candidate>, findings: seq<Finding>) {
    forall c :: c in matched ==> c.findingIndex < |findings|
  }

  /** One anchor per planted bug of the fixture, in label order. */
  function Anchors(labels: seq<Label>, n: nat, findings: seq<Finding>, matched: seq<Candidate>): seq<Anchor>
    requires n <= |labels| && InRange(matched, findings)
  {
    if n == 0 then []
    else if labels[n - 1].Clean? then Anchors(labels, n - 1, findings, matched)
    else
      var l, m := labels[n - 1], MatchOf(matched, n - 1);
      Anchors(labels, n - 1, findings, matched) +
      [Anchor(l.file, l.line, if m.Some? then Some(m.value.findingLine) else None,
              if m.Some? then Some(findings[m.value.findingIndex].severity) else None, l.severity)]
  }

  function Anchored(anchors: seq<Anchor>): nat {
    if anchors == [] then 0
    else Anchored(anchors[..|anchors| - 1]) + (if anchors[|anchors| - 1].anchoredLine.Some? then 1 else 0)
  }

  function RecordOf(row: Row, status: string, labels: seq<Label>, findings: seq<Finding>, matched: seq<Candidate>): Record
    requires InRange(matched, findings)
  {
    Record(row.fixture, status, row.matches, row.falsePositives, row.falseNegatives,
           Anchors(labels, |labels|, findings, matched))
  }

  /** After the first `n` labels: anchored bugs are the used labels, unanchored ones the missed labels. */
  ghost predicate Counted(labels: seq<Label>, n: nat, findings: seq<Finding>, matched: seq<Candidate>, used: set<nat>)
    requires n <= |labels| && InRange(matched, findings)
  {
    var anchors := Anchors(labels, n, findings, matched);
    Anchored(anchors) == |UsedBelow(used, n)| && |anchors| == |UsedBelow(used, n)| + |Unmatched(labels, n, used)|
  }

  lemma {:induction false} AnchorCounts(labels: seq<Label>, n: nat, findings: seq<Finding>, matched: seq<Candidate>)
    requires n <= |labels| && InRange(matched, findings)
    requires forall c :: c in matched ==> c.labelIndex < |labels| && labels[c.labelIndex].Bug?
    ensures Counted(labels, n, findings, matched, LabelsOf(Members(matched)))
  {
    if n == 0 {
      NoneCounted(labels, findings, matched, LabelsOf(Members(matched)));
    } else {
      AnchorCounts(labels, n - 1, findings, matched);
      MatchedIsUsed(matched, n - 1);
      CountedStep(labels, n, findings, matched, LabelsOf(Members(matched)));
    }
  }

  lemma NoneCounted(labels: seq<Label>, findings: seq<Finding>, matched: seq<Candidate>, used: set<nat>)
    requires InRange(matched, findings)
    ensures Counted(labels, 0, findings, matched, used)
  {
    assert UsedBelow(used, 0) == {};
  }

  lemma CountedStep(labels: seq<Label>, n: nat, findings: seq<Finding>, matched: seq<Candidate>, used: set<nat>)
    requires 0 < n <= |labels| && InRange(matched, findings) && Counted(labels, n - 1, findings, matched, used)
    requires n - 1 in used <==> MatchOf(matched, n - 1).Some?
    requires n - 1 in used ==> labels[n - 1].Bug?
    ensures Counted(labels, n, findings, matched, used)
  {
    UsedSize(used, n - 1);
    if labels[n - 1].Bug? {
      AnchoredStep(labels, n, findings, matched);
    }
    MissedStep(labels, n, used);
  }

  lemma MissedStep(labels: seq<Label>, n: nat, used: set<nat>)
    requires 0 < n <= |labels|
    ensures |Unmatched(labels, n, used)| ==
            |Unmatched(labels, n - 1, used)| + (if labels[n - 1].Bug? && n - 1 !in used then 1 else 0)
  {
  }

  lemma MatchedIsUsed(matched: seq<Candidate>, l: nat)
    ensures l in LabelsOf(Members(matched)) <==> MatchOf(matched, l).Some?
  {
    if MatchOf(matched, l).Some? { assert MatchOf(matched, l).value in Members(matched); }
  }

  lemma AnchoredStep(labels: seq<Label>, n: nat, findings: seq<Finding>, matched: seq<Candidate>)
    requires 0 < n <= |labels| && labels[n - 1].Bug? && InRange(matched, findings)
    ensures var rest, all := Anchors(labels, n - 1, findings, matched), Anchors(labels, n, findings, matched);
      && |all| == |rest| + 1
      && Anchored(all) == Anchored(rest) + (if MatchOf(matched, n - 1).Some? then 1 else 0)
  {
    var rest, all := Anchors(labels, n - 1, findings, matched), Anchors(labels, n, findings, matched);
    assert all[..|all| - 1] == rest;
  }

  /** In a record taken from a score, anchored bugs number the matches and unanchored bugs the misses. */
  lemma RecordCountsAgree(labels: seq<Label>, findings: seq<Finding>, tolerance: int, row: Row, matched: seq<Candidate>, status: string)
    requires RowOf(labels, findings, tolerance, row, matched)
    ensures InRange(matched, findings)
    ensures var record := RecordOf(row, status, labels, findings, matched);
      && Anchored(record.anchors) == record.matches
      && |record.anchors| - Anchored(record.anchors) == record.falseNegatives
      && |record.anchors| == BugCount(labels)
  {
    var m := Members(matched);
    forall c | c in matched
      ensures c.labelIndex < |labels| && labels[c.labelIndex].Bug? && c.findingIndex < |findings|
    {
      assert c in m && c in CandidateSet(labels, findings, tolerance);
    }
    AnchorCounts(labels, |labels|, findings, matched);
    MembersSize(matched);
    MatchingSizes(m);
    assert UsedBelow(LabelsOf(m), |labels|) == LabelsOf(m);
    UnmatchedCount(labels, |labels|, LabelsOf(m));
    assert labels[..|labels|] == labels;
  }

  datatype FixtureOutcome = FixtureOutcome(fixture: string, status: string)

  /** Anchor `a` carries its own label, and the line and severity of exactly the finding matched to it, if one was. */
  ghost predicate AnchorOf(labels: seq<Label>, l: nat, findings: seq<Finding>, matched: seq<Candidate>, a: Anchor) {
    && l < |labels| && labels[l].Bug?
    && a.path == labels[l].file && a.line == labels[l].line && a.expectedSeverity == labels[l].severity
    && (forall c :: c in matched && c.labelIndex == l ==>
          && c.findingIndex < |findings| && a.severity == Some(findings[c.findingIndex].severity)
          && a.anchoredLine == FindingLine(findings[c.findingIndex]))
    && ((forall c :: c in matched ==> c.labelIndex != l) ==> a.severity == None && a.anchoredLine == None)
  }

  /** One anchor per planted bug, in label order: label `l` owns the anchor at the number of bugs before it. */
  ghost predicate AnchorsOf(labels: seq<Label>, findings: seq<Finding>, matched: seq<Candidate>, anchors: seq<Anchor>) {
    && |anchors| == BugCount(labels)
    && forall l :: 0 <= l < |labels| && labels[l].Bug? ==>
         BugCount(labels[..l]) < |anchors| && AnchorOf(labels, l, findings, matched, anchors[BugCount(labels[..l])])
  }

  lemma {:induction false} AnchorAt(
    labels: seq<Label>, n: nat, findings: seq<Finding>, tolerance: int, matched: seq<Candidate>, l: nat)
    requires l < n <= |labels| && labels[l].Bug? && InRange(matched, findings) && Matching(Members(matched))
    requires forall c :: c in matched ==> IsCandidate(labels, findings, tolerance, c)
    ensures |Anchors(labels, n, findings, matched)| == BugCount(labels[..n])
    ensures BugCount(labels[..l]) < BugCount(labels[..n])
    ensures AnchorOf(labels, l, findings, matched, Anchors(labels, n, findings, matched)[BugCount(labels[..l])])
  {
    AnchorCount(labels, n - 1, findings, matched);
    assert labels[..n][..n - 1] == labels[..n - 1];
    if l < n - 1 {
      AnchorAt(labels, n - 1, findings, tolerance, matched, l);
    } else {
      var a := Anchors(labels, n, findings, matched)[BugCount(labels[..l])];
      LastAnchor(labels, l, findings, tolerance, matched, a);
    }
  }

  lemma {:induction false} AnchorCount(labels: seq<Label>, n: nat, findings: seq<Finding>, matched: seq<Candidate>)
    requires n <= |labels| && InRange(matched, findings)
    ensures |Anchors(labels, n, findings, matched)| == BugCount(labels[..n])
  {
    if n > 0 {
      AnchorCount(labels, n - 1, findings, matched);
      assert labels[..n][..n - 1] == labels[..n - 1];
    }
  }

  lemma LastAnchor(labels: seq<Label>, l: nat, findings: seq<Finding>, tolerance: int, matched: seq<Candidate>, a: Anchor)
    requires l < |labels| && labels[l].Bug? && InRange(matched, findings) && Matching(Members(matched))
    requires forall c :: c in matched ==> IsCandidate(labels, findings, tolerance, c)
    requires var m := MatchOf(matched, l);
      a == Anchor(labels[l].file, labels[l].line, if m.Some? then Some(m.value.findingLine) else None,
                  if m.Some? then Some(findings[m.value.findingIndex].severity) else None, labels[l].severity)
    ensures AnchorOf(labels, l, findings, matched, a)
  {
    var m := MatchOf(matched, l);
    forall c | c in matched && c.labelIndex == l ensures m == Some(c) {
      assert c in Members(matched) && m.value in Members(matched) && Conflict(c, m.value);
    }
  }

  /** The record repeats its row's counts and anchors every planted bug as matched. */
  ghost predicate Recorded(labels: seq<Label>, findings: seq<Finding>, row: Row, matched: seq<Candidate>, record: Record) {
    && record.matches == row.matches && record.falsePositives == row.falsePositives
    && record.falseNegatives == row.falseNegatives && AnchorsOf(labels, findings, matched, record.anchors)
  }

  ghost predicate RecordsRun(
    labels: seq<Label>, findings: map<string, seq<Finding>>, order: seq<string>,
    rows: seq<Row>, matched: seq<seq<Candidate>>, run: FixtureOutcome, record: Record)
    requires |rows| == |matched| == |order|
  {
    && record.fixture == run.fixture && record.status == run.status
    && Anchored(record.anchors) == record.matches
    && |record.anchors| - Anchored(record.anchors) == record.falseNegatives
    && (forall k :: 0 <= k < |order| && order[k] == run.fixture ==>
          Recorded(FixtureLabels(labels, order[k]), FixtureFindings(findings, order[k]), rows[k], matched[k], record))
    && (run.fixture !in order ==>
          record == Record(run.fixture, run.status, 0, 0, 0, []) && FixtureLabels(labels, run.fixture) == [])
  }

  function Position(order: seq<string>, fixture: string): (k: nat)
    ensures k <= |order| && (k < |order| ==> order[k] == fixture) && (k == |order| ==> fixture !in order)
  {
    if order == [] || order[0] == fixture then 0 else 1 + Position(order[1..], fixture)
  }

  lemma {:induction false} Unlabelled(labels: seq<Label>, fixture: string)
    requires forall l :: l in labels ==> l.fixture != fixture
    ensures FixtureLabels(labels, fixture) == []
  {
    if labels != [] { Unlabelled(labels[..|labels| - 1], fixture); }
  }

  /** A run whose fixture was never scored records zeros and has no planted bugs. */
  method RecordRun(
    labels: seq<Label>, findings: map<string, seq<Finding>>, order: seq<string>, ghost tolerance: int,
    rows: seq<Row>, matched: seq<seq<Candidate>>, run: FixtureOutcome)
    returns (record: Record)
    requires Enumerates(order, labels, findings) && Scored(order, labels, findings, tolerance, rows, matched)
    ensures RecordsRun(labels, findings, order, rows, matched, run, record)
  {
    var k := Position(order, run.fixture);
    if k < |order| {
      var ls, fs := FixtureLabels(labels, order[k]), FixtureFindings(findings, order[k]);
      RecordCountsAgree(ls, fs, tolerance, rows[k], matched[k], run.status);
      RecordedExactly(ls, fs, tolerance, rows[k], matched[k], run.status);
      OnlyPosition(order, k);
      record := RecordOf(rows[k], run.status, ls, fs, matched[k]);
    } else {
      Unlabelled(labels, run.fixture);
      record := Record(run.fixture, run.status, 0, 0, 0, []);
    }
  }

  lemma OnlyPosition(order: seq<string>, k: nat)
    requires Distinct(order) && k < |order|
    ensures forall j :: 0 <= j < |order| && order[j] == order[k] ==> j == k
  {
    forall j | 0 <= j < |order| && order[j] == order[k] ensures j == k {
      if j < k { DistinctAt(order, j, k); }
      if k < j { DistinctAt(order, k, j); }
    }
  }

  lemma RecordedExactly(
    labels: seq<Label>, findings: seq<Finding>, tolerance: int, row: Row, matched: seq<Candidate>, status: string)
    requires RowOf(labels, findings, tolerance, row, matched) && InRange(matched, findings)
    ensures Recorded(labels, findings, row, matched, RecordOf(row, status, labels, findings, matched))
  {
    forall c | c in matched ensures IsCandidate(labels, findings, tolerance, c) {
      assert c in Members(matched) && c in CandidateSet(labels, findings, tolerance);
    }
    assert labels[..|labels|] == labels;
    AnchorCount(labels, |labels|, findings, matched);
    forall l | 0 <= l < |labels| && labels[l].Bug?
      ensures BugCount(labels[..l]) < BugCount(labels)
      ensures AnchorOf(labels, l, findings, matched, Anchors(labels, |labels|, findings, matched)[BugCount(labels[..l])])
    {
      AnchorAt(labels, |labels|, findings, tolerance, matched, l);
    }
  }

  /** One record per run, in run order. */
  method BaselineFrom(
    labels: seq<Label>, findings: map<string, seq<Finding>>, order: seq<string>, ghost tolerance: int,
    rows: seq<Row>, matched: seq<seq<Candidate>>, runs: seq<FixtureOutcome>)
    returns (baseline: Baseline)
    requires Enumerates(order, labels, findings) && Scored(order, labels, findings, tolerance, rows, matched)
    ensures baseline.version == BASELINE_VERSION && |baseline.records| == |runs|
    ensures forall k :: 0 <= k < |runs| ==>
      RecordsRun(labels, findings, order, rows, matched, runs[k], baseline.records[k])
  {
    var records: seq<Record> := [];
    for i := 0 to |runs|
      invariant |records| == i
      invariant forall k :: 0 <= k < i ==> RecordsRun(labels, findings, order, rows, matched, runs[k], records[k])
    {
      var record := RecordRun(labels, findings, order, tolerance, rows, matched, runs[i]);
      records := records + [record];
    }
    baseline := Baseline(BASELINE_VERSION, records);
  }

  // ---- drift -------------------------------------------------------------------------------------

  datatype Drift =
    | VersionChanged | NotInBaseline(fixture: string) | MissingFixture(fixture: string)
    | FieldChanged(fixture: string, field: string) | AnchorChanged(fixture: string, index: nat, field: string)

  /** Whether this field of the record changed. */
  predicate FieldDiffers(record: Record, was: Record, field: string) {
    || (field == "status" && record.status != was.status)
    || (field == "matched bugs" && record.matches != was.matches)
    || (field == "false positives" && record.falsePositives != was.falsePositives)
    || (field == "missed bugs" && record.falseNegatives != was.falseNegatives)
    || (field == "planted bugs" && |record.anchors| != |was.anchors|)
  }

  /** Whether this part of anchor `i` changed; another bug hides the rest, and another number of bugs hides them all. */
  predicate AnchorDiffers(record: Record, was: Record, i: nat, field: string) {
    && |record.anchors| == |was.anchors| && i < |record.anchors|
    && var now, before := record.anchors[i], was.anchors[i];
       if now.path != before.path || now.line != before.line then field == "planted bug"
       else
         || (field == "label" && now.expectedSeverity != before.expectedSeverity)
         || (field == "line" && now.anchoredLine != before.anchoredLine)
         || (field == "severity" && now.severity != before.severity)
  }

  /** The messages that comparing two records of one fixture gives. */
  predicate RecordMessage(record: Record, was: Record, m: Drift) {
    match m
    case FieldChanged(f, field) => f == record.fixture && FieldDiffers(record, was, field)
    case AnchorChanged(f, i, field) => f == record.fixture && AnchorDiffers(record, was, i, field)
    case _ => false
  }

  /** The messages about one pair of anchors. */
  function AnchorNotes(fixture: string, i: nat, now: Anchor, before: Anchor): (notes: seq<Drift>)
    ensures notes == [] <==> now == before
    ensures forall m :: m in notes ==> m.AnchorChanged?
  {
    if now.path != before.path || now.line != before.line then [AnchorChanged(fixture, i, "planted bug")]
    else
      (if now.expectedSeverity != before.expectedSeverity then [AnchorChanged(fixture, i, "label")] else [])
      + (if now.anchoredLine != before.anchoredLine then [AnchorChanged(fixture, i, "line")] else [])
      + (if now.severity != before.severity then [AnchorChanged(fixture, i, "severity")] else [])
  }

  lemma NotesExactly(record: Record, was: Record, i: nat, m: Drift)
    requires i < |record.anchors| == |was.anchors|
    ensures m in AnchorNotes(record.fixture, i, record.anchors[i], was.anchors[i]) <==>
      m.AnchorChanged? && m.fixture == record.fixture && m.index == i && AnchorDiffers(record, was, i, m.field)
  {
  }

  /** The differences between two records' anchors: which there are, and none exactly when the anchors are equal. */
  method AnchorDrift(record: Record, was: Record) returns (drift: seq<Drift>)
    ensures drift == [] <==> record.anchors == was.anchors
    ensures |record.anchors| != |was.anchors| ==> drift == [FieldChanged(record.fixture, "planted bugs")]
    ensures |record.anchors| == |was.anchors| ==> forall m :: m in drift <==> AnchorMessage(record, was, |record.anchors|, m)
  {
    if |record.anchors| != |was.anchors| { return [FieldChanged(record.fixture, "planted bugs")]; }
    drift := [];
    for i := 0 to |record.anchors|
      invariant drift == [] <==> record.anchors[..i] == was.anchors[..i]
      invariant forall m :: m in drift <==> AnchorMessage(record, was, i, m)
    {
      PrefixSnoc(record.anchors, i);
      PrefixSnoc(was.anchors, i);
      forall m ensures m in AnchorNotes(record.fixture, i, record.anchors[i], was.anchors[i]) <==>
        m.AnchorChanged? && m.fixture == record.fixture && m.index == i && AnchorDiffers(record, was, i, m.field)
      {
        NotesExactly(record, was, i, m);
      }
      drift := drift + AnchorNotes(record.fixture, i, record.anchors[i], was.anchors[i]);
    }
    assert record.anchors[..|record.anchors|] == record.anchors && was.anchors[..|was.anchors|] == was.anchors;
  }

  ghost predicate AnchorMessage(record: Record, was: Record, n: nat, m: Drift) {
    m.AnchorChanged? && m.fixture == record.fixture && m.index < n && AnchorDiffers(record, was, m.index, m.field)
  }

  method RecordDrift(record: Record, was: Record) returns (drift: seq<Drift>)
    requires record.fixture == was.fixture
    ensures drift == [] <==> record == was
    ensures forall m :: m in drift <==> RecordMessage(record, was, m)
  {
    var fields := [];
    if record.status != was.status { fields := fields + [FieldChanged(record.fixture, "status")]; }
    if record.matches != was.matches { fields := fields + [FieldChanged(record.fixture, "matched bugs")]; }
    if record.falsePositives != was.falsePositives { fields := fields + [FieldChanged(record.fixture, "false positives")]; }
    if record.falseNegatives != was.falseNegatives { fields := fields + [FieldChanged(record.fixture, "missed bugs")]; }
    var anchors := AnchorDrift(record, was);
    drift := fields + anchors;
  }

  /** Records by fixture; a repeated fixture keeps its last record. */
  function ByFixture(records: seq<Record>): (m: map<string, Record>)
    ensures forall f :: f in m ==> m[f] in records && m[f].fixture == f
  {
    if records == [] then map[]
    else
      var last := records[|records| - 1];
      assert records == records[..|records| - 1] + [last];
      ByFixture(records[..|records| - 1])[last.fixture := last]
  }

  function Fixtures(records: seq<Record>): (fs: seq<string>)
    ensures |fs| == |records| && forall i :: 0 <= i < |fs| ==> fs[i] == records[i].fixture
  {
    seq(|records|, i requires 0 <= i < |records| => records[i].fixture)
  }

  /** The records are exactly the expected ones, each once. */
  ghost predicate Reproduces(expected: map<string, Record>, records: seq<Record>) {
    Distinct(Fixtures(records)) && ByFixture(records) == expected
  }

  lemma {:induction false} FixtureKept(records: seq<Record>, i: nat)
    requires i < |records|
    ensures records[i].fixture in ByFixture(records)
    ensures Distinct(Fixtures(records)) ==> ByFixture(records)[records[i].fixture] == records[i]
  {
    var n := |records| - 1;
    if i < n {
      FixtureKept(records[..n], i);
      assert Fixtures(records[..n]) == Fixtures(records)[..n];
      DistinctPrefix(Fixtures(records[..n]), Fixtures(records));
      if Distinct(Fixtures(records)) { DistinctAt(Fixtures(records), i, n); }
    }
  }

  /** What the loop knows while it has found nothing: the records read so far are distinct and as expected. */
  ghost predicate Quiet(all: map<string, Record>, expected: map<string, Record>, seen: seq<Record>) {
    && Distinct(Fixtures(seen))
    && (forall f :: f in ByFixture(seen) ==> f in all && all[f] == ByFixture(seen)[f])
    && expected == all - ByFixture(seen).Keys
  }

  /** A record that was taken before, is unknown, or differs proves that the run does not reproduce the baseline. */
  lemma Noticed(all: map<string, Record>, expected: map<string, Record>, records: seq<Record>, i: nat)
    requires i < |records| && Quiet(all, expected, records[..i])
    requires records[i].fixture !in expected || expected[records[i].fixture] != records[i]
    ensures !Reproduces(all, records)
  {
    var f := records[i].fixture;
    FixtureKept(records, i);
    if f in ByFixture(records[..i]) {
      var k :| 0 <= k < i && records[k] == ByFixture(records[..i])[f];
      if Distinct(Fixtures(records)) { DistinctAt(Fixtures(records), k, i); }
    }
  }

  lemma StaysQuiet(all: map<string, Record>, expected: map<string, Record>, records: seq<Record>, i: nat)
    requires i < |records| && Quiet(all, expected, records[..i])
    requires records[i].fixture in expected && expected[records[i].fixture] == records[i]
    ensures Quiet(all, expected - {records[i].fixture}, records[..i + 1])
  {
    var seen, next := records[..i], records[..i + 1];
    assert next[..i] == seen;
    assert Fixtures(next) == Fixtures(seen) + [records[i].fixture];
    Admit(Fixtures(seen), records[i].fixture);
    forall k | 0 <= k < i ensures Fixtures(seen)[k] != records[i].fixture { FixtureKept(seen, k); }
    assert ByFixture(next) == ByFixture(seen)[records[i].fixture := records[i]];
    assert ByFixture(next).Keys == ByFixture(seen).Keys + {records[i].fixture};
  }

  /**
   * The gate is silent exactly when versions agree and the current records are the baseline's, last one per fixture,
   * each exactly once.
   */
  method DriftBetween(baseline: Baseline, current: Baseline) returns (drift: seq<Drift>)
    ensures drift == [] <==> baseline.version == current.version && Reproduces(ByFixture(baseline.records), current.records)
    ensures baseline.version != current.version ==> drift == [VersionChanged]
    ensures baseline.version == current.version ==>
      forall m :: m in drift <==> Reported(ByFixture(baseline.records), current.records, m)
  {
    if baseline.version != current.version { return [VersionChanged]; }
    var all, records := ByFixture(baseline.records), current.records;
    var found, expected := CompareRecords(all, records);
    var missing := Missing(expected.Keys);
    LeftOver(all, expected, records, found == []);
    drift := found + missing;
  }

  /** All messages of a comparison: what each record gives, and each fixture that no record is of. */
  ghost predicate Reported(all: map<string, Record>, records: seq<Record>, m: Drift) {
    || Message(all, records, |records|, m)
    || (m.MissingFixture? && m.fixture in all && !Named(records, |records|, m.fixture))
  }

  lemma LeftOver(all: map<string, Record>, expected: map<string, Record>, records: seq<Record>, quiet: bool)
    requires quiet ==> Quiet(all, expected, records)
    requires !quiet ==> !Reproduces(all, records)
    ensures quiet && expected.Keys == {} <==> Reproduces(all, records)
  {
    if quiet {
      assert expected.Keys == {} ==> ByFixture(records) == all;
      assert expected.Keys != {} ==> ByFixture(records) != all;
    }
  }

  /** Some of the first `n` records is of this fixture. */
  ghost predicate Named(records: seq<Record>, n: nat, fixture: string) {
    exists j :: 0 <= j < n && j < |records| && records[j].fixture == fixture
  }

  /** The messages that the first `n` records give: a repeated or unknown fixture, or a change against the baseline. */
  ghost predicate Message(all: map<string, Record>, records: seq<Record>, n: nat, m: Drift) {
    exists i :: 0 <= i < n && i < |records| && MessageAt(all, records, i, m)
  }

  ghost predicate MessageAt(all: map<string, Record>, records: seq<Record>, i: nat, m: Drift)
    requires i < |records|
  {
    var f := records[i].fixture;
    if f !in all || Named(records, i, f) then m == NotInBaseline(f) else RecordMessage(records[i], all[f], m)
  }

  lemma MessageStep(all: map<string, Record>, records: seq<Record>, i: nat, m: Drift)
    requires i < |records|
    ensures Message(all, records, i + 1, m) <==> Message(all, records, i, m) || MessageAt(all, records, i, m)
  {
  }

  lemma NamedStep(records: seq<Record>, i: nat, f: string)
    requires i < |records|
    ensures Named(records, i + 1, f) <==> Named(records, i, f) || records[i].fixture == f
  {
  }

  /** The expected records after the first `n` were taken out. */
  ghost predicate Remaining(all: map<string, Record>, records: seq<Record>, n: nat, expected: map<string, Record>) {
    && (forall f :: f in expected <==> f in all && !Named(records, n, f))
    && (forall f :: f in expected ==> expected[f] == all[f])
  }

  /** The loop that takes each current record out of the expected ones and compares it. */
  method CompareRecords(all: map<string, Record>, records: seq<Record>)
    returns (drift: seq<Drift>, expected: map<string, Record>)
    requires forall f :: f in all ==> all[f].fixture == f
    ensures drift == [] ==> Quiet(all, expected, records)
    ensures drift != [] ==> !Reproduces(all, records)
    ensures Remaining(all, records, |records|, expected)
    ensures forall m :: m in drift <==> Message(all, records, |records|, m)
  {
    expected, drift := all, [];
    assert ByFixture(records[..0]).Keys == {} && all - {} == all;
    for i := 0 to |records|
      invariant drift == [] ==> Quiet(all, expected, records[..i])
      invariant drift != [] ==> !Reproduces(all, records)
      invariant Remaining(all, records, i, expected)
      invariant forall m :: m in drift <==> Message(all, records, i, m)
    {
      var more;
      more, expected := CompareRecord(all, records, i, expected, drift == []);
      forall m ensures Message(all, records, i + 1, m) <==> Message(all, records, i, m) || m in more {
        MessageStep(all, records, i, m);
      }
      drift := drift + more;
    }
    assert records[..|records|] == records;
  }

  /** One record against what is still expected. */
  method CompareRecord(
    all: map<string, Record>, records: seq<Record>, i: nat, expected: map<string, Record>, ghost quiet: bool)
    returns (more: seq<Drift>, left: map<string, Record>)
    requires i < |records| && Remaining(all, records, i, expected) && forall f :: f in all ==> all[f].fixture == f
    requires quiet ==> Quiet(all, expected, records[..i])
    ensures Remaining(all, records, i + 1, left)
    ensures forall m :: m in more <==> MessageAt(all, records, i, m)
    ensures quiet && more == [] ==> Quiet(all, left, records[..i + 1])
    ensures quiet && more != [] ==> !Reproduces(all, records)
  {
    var record := records[i];
    forall f ensures Named(records, i + 1, f) <==> Named(records, i, f) || record.fixture == f { NamedStep(records, i, f); }
    if record.fixture !in expected {
      if quiet { Noticed(all, expected, records, i); }
      return [NotInBaseline(record.fixture)], expected;
    }
    more := RecordDrift(record, expected[record.fixture]);
    left := expected - {record.fixture};
    if quiet {
      if more == [] { StaysQuiet(all, expected, records, i); } else { Noticed(all, expected, records, i); }
    }
  }

  /** One message per fixture the run did not produce. */
  method Missing(fixtures: set<string>) returns (drift: seq<Drift>)
    ensures |drift| == |fixtures| && forall m :: m in drift <==> m.MissingFixture? && m.fixture in fixtures
  {
    var rest := fixtures;
    drift := [];
    while rest != {}
      invariant rest <= fixtures && |drift| == |fixtures| - |rest|
      invariant forall m :: m in drift <==> m.MissingFixture? && m.fixture in fixtures - rest
      decreases |rest|
    {
      var f :| f in rest;
      drift, rest := drift + [MissingFixture(f)], rest - {f};
    }
  }

  /** With distinct baseline fixtures, that is: the same records, field by field, up to order. */
  lemma ReproducesUpToOrder(baseline: seq<Record>, current: seq<Record>)
    requires Distinct(Fixtures(baseline))
    ensures Reproduces(ByFixture(baseline), current) <==> multiset(current) == multiset(baseline)
  {
    if Reproduces(ByFixture(baseline), current) {
      SameMapSameRecords(current, baseline);
    }
    if multiset(current) == multiset(baseline) {
      forall r ensures r in current <==> r in baseline { Sorting.SameElements(current, baseline, r); }
      DistinctByMultiset(baseline, current);
      SameRecordsSameMap(current, baseline);
    }
  }

  lemma OneRecord(records: seq<Record>, r: Record)
    requires Distinct(Fixtures(records))
    ensures r in records <==> r.fixture in ByFixture(records) && ByFixture(records)[r.fixture] == r
    ensures multiset(records)[r] <= 1
  {
    if r in records {
      var i :| 0 <= i < |records| && records[i] == r;
      FixtureKept(records, i);
    }
    AtMostOnce(records, r);
  }

  lemma {:induction false} AtMostOnce(records: seq<Record>, r: Record)
    requires Distinct(Fixtures(records))
    ensures multiset(records)[r] <= 1
  {
    if records != [] {
      var n := |records| - 1;
      assert records == records[..n] + [records[n]];
      assert Fixtures(records) == Fixtures(records[..n]) + [records[n].fixture];
      Admit(Fixtures(records[..n]), records[n].fixture);
      AtMostOnce(records[..n], r);
      if r == records[n] {
        assert r !in records[..n] by {
          assert forall k :: 0 <= k < n ==> Fixtures(records[..n])[k] == records[..n][k].fixture;
        }
      }
    }
  }

  lemma SameMapSameRecords(a: seq<Record>, b: seq<Record>)
    requires Distinct(Fixtures(a)) && Distinct(Fixtures(b)) && ByFixture(a) == ByFixture(b)
    ensures multiset(a) == multiset(b)
  {
    forall r ensures multiset(a)[r] == multiset(b)[r] {
      OneRecord(a, r);
      OneRecord(b, r);
    }
  }

  lemma SameRecordsSameMap(a: seq<Record>, b: seq<Record>)
    requires Distinct(Fixtures(a)) && Distinct(Fixtures(b)) && forall r :: r in a <==> r in b
    ensures ByFixture(a) == ByFixture(b)
  {
    forall f | f in ByFixture(a) ensures f in ByFixture(b) && ByFixture(a)[f] == ByFixture(b)[f] {
      OneRecord(b, ByFixture(a)[f]);
    }
    forall f | f in ByFixture(b) ensures f in ByFixture(a) {
      OneRecord(a, ByFixture(b)[f]);
    }
  }

  /** A permutation of records with distinct fixtures has distinct fixtures. */
  lemma DistinctByMultiset(a: seq<Record>, b: seq<Record>)
    requires Distinct(Fixtures(a)) && multiset(a) == multiset(b)
    ensures Distinct(Fixtures(b))
  {
    var fs := Fixtures(b);
    forall i, j | Pos(fs, i) && Pos(fs, j) && i < j ensures fs[i] != fs[j] {
      Sorting.SameElements(a, b, b[i]);
      Sorting.SameElements(a, b, b[j]);
      OneRecord(a, b[i]);
      OneRecord(a, b[j]);
      if fs[i] == fs[j] { TwiceIn(b, i, j); }
    }
  }

  lemma TwiceIn(s: seq<Record>, i: nat, j: nat)
    requires i < j < |s| && s[i] == s[j]
    ensures multiset(s)[s[i]] >= 2
  {
    assert s == s[..j] + [s[j]] + s[j + 1..];
    assert s[i] in s[..j];
  }
}
