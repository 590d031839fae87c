/** evals/review-seeded-bugs/score.ts: scoring a corpus of fixtures, over exact rationals. */
module ReviewScore {
  import opened Wrappers
  import Sorting
  import opened ReviewMatching

  datatype Row = Row(
    fixture: string, clean: bool, plantedBugs: nat, findings: nat, matches: nat, falsePositives: nat, falseNegatives: nat)

  datatype Score = Score(
    rows: seq<Row>, matched: seq<seq<Candidate>>, plantedBugs: nat, findings: nat,
    truePositives: nat, falsePositives: nat, falseNegatives: nat, unknownFixtureFindings: nat, rates: Rates)

  datatype Rates = Rates(recall: real, precision: real, f1: real)

  /** Labels of one fixture, in declaration order. */
  function FixtureLabels(labels: seq<Label>, fixture: string): seq<Label> {
    if labels == [] then []
    else
      var last := labels[|labels| - 1];
      FixtureLabels(labels[..|labels| - 1], fixture) + (if last.fixture == fixture then [last] else [])
  }

  lemma FixtureSnoc(labels: seq<Label>, last: Label, fixture: string)
    ensures FixtureLabels(labels + [last], fixture) == FixtureLabels(labels, fixture) + (if last.fixture == fixture then [last] else [])
  {
    assert (labels + [last])[..|labels|] == labels;
  }

  /** Grouping by fixture keeps order and repetitions. */
  lemma {:induction false} FixtureDistributes(a: seq<Label>, b: seq<Label>, fixture: string)
    ensures FixtureLabels(a + b, fixture) == FixtureLabels(a, fixture) + FixtureLabels(b, fixture)
  {
    if b == [] {
      assert a + b == a;
    } else {
      var n := |b| - 1;
      assert a + b == (a + b[..n]) + [b[n]] && b == b[..n] + [b[n]];
      FixtureDistributes(a, b[..n], fixture);
      FixtureSnoc(a + b[..n], b[n], fixture);
      FixtureSnoc(b[..n], b[n], fixture);
    }
  }

  function FixtureFindings(findings: map<string, seq<Finding>>, fixture: string): seq<Finding> {
    if fixture in findings then findings[fixture] else []
  }

  /** `order` lists every fixture that has labels or findings exactly once, in whatever order names compare. */
  ghost predicate Enumerates(order: seq<string>, labels: seq<Label>, findings: map<string, seq<Finding>>) {
    && Distinct(order)
    && (forall l :: l in labels ==> l.fixture in order)
    && (forall f :: f in findings ==> f in order)
  }

  // ---- sums over fixtures ------------------------------------------------------------------------

  function BugsIn(order: seq<string>, labels: seq<Label>): nat {
    if order == [] then 0
    else BugsIn(order[..|order| - 1], labels) + BugCount(FixtureLabels(labels, order[|order| - 1]))
  }

  function FindingsIn(order: seq<string>, findings: map<string, seq<Finding>>): nat {
    if order == [] then 0
    else FindingsIn(order[..|order| - 1], findings) + |FixtureFindings(findings, order[|order| - 1])|
  }

  /** Findings of the fixtures that no label mentions. */
  function UnknownIn(order: seq<string>, labels: seq<Label>, findings: map<string, seq<Finding>>): nat {
    if order == [] then 0
    else
      var fixture := order[|order| - 1];
      UnknownIn(order[..|order| - 1], labels, findings) +
      (if FixtureLabels(labels, fixture) == [] then |FixtureFindings(findings, fixture)| else 0)
  }

  lemma UnknownStep(order: seq<string>, labels: seq<Label>, findings: map<string, seq<Finding>>, k: nat)
    requires k < |order|
    ensures UnknownIn(order[..k + 1], labels, findings) == UnknownIn(order[..k], labels, findings) +
      (if FixtureLabels(labels, order[k]) == [] then |FixtureFindings(findings, order[k])| else 0)
  {
    assert order[..k + 1][..k] == order[..k];
  }

  lemma {:induction false} NoBugsIn(order: seq<string>)
    ensures BugsIn(order, []) == 0
  {
    if order != [] { NoBugsIn(order[..|order| - 1]); }
  }

  /** One more label adds to the sum of its own fixture, once. */
  lemma {:induction false} BugsStep(order: seq<string>, labels: seq<Label>, last: Label)
    requires Distinct(order)
    ensures BugsIn(order, labels + [last]) ==
            BugsIn(order, labels) + (if last.fixture in order && last.Bug? then 1 else 0)
    decreases |order|
  {
    if order != [] {
      var init, f := order[..|order| - 1], order[|order| - 1];
      assert order == init + [f];
      Admit(init, f);
      BugsStep(init, labels, last);
      FixtureStep(labels, last, f);
    }
  }

  lemma FixtureStep(labels: seq<Label>, last: Label, fixture: string)
    ensures BugCount(FixtureLabels(labels + [last], fixture)) ==
            BugCount(FixtureLabels(labels, fixture)) + (if last.fixture == fixture && last.Bug? then 1 else 0)
  {
    var own := FixtureLabels(labels, fixture);
    assert (labels + [last])[..|labels|] == labels;
    assert (own + [last])[..|own|] == own && own + [] == own;
  }

  /** Fixtures partition the labels: summing planted bugs per fixture counts each label once. */
  lemma {:induction false} BugsPartition(order: seq<string>, labels: seq<Label>)
    requires Distinct(order) && forall l :: l in labels ==> l.fixture in order
    ensures BugsIn(order, labels) == BugCount(labels)
    decreases |labels|
  {
    if labels == [] {
      NoBugsIn(order);
    } else {
      var init, last := labels[..|labels| - 1], labels[|labels| - 1];
      assert labels == init + [last];
      BugsPartition(order, init);
      BugsStep(order, init, last);
    }
  }

  // ---- rows --------------------------------------------------------------------------------------

  /** Column sums over rows. */
  datatype Tally = Tally(plantedBugs: nat, findings: nat, matches: nat, falsePositives: nat, falseNegatives: nat)
  {
    function Add(row: Row): Tally {
      Tally(plantedBugs + row.plantedBugs, findings + row.findings, matches + row.matches,
            falsePositives + row.falsePositives, falseNegatives + row.falseNegatives)
    }
  }

  function Sum(rows: seq<Row>): Tally {
    if rows == [] then Tally(0, 0, 0, 0, 0) else Sum(rows[..|rows| - 1]).Add(rows[|rows| - 1])
  }

  ghost predicate RowBalances(row: Row) {
    row.matches + row.falseNegatives == row.plantedBugs && row.matches + row.falsePositives == row.findings
  }

  /** A row counts what matching one fixture leaves matched, missed and extra. */
  ghost predicate RowOf(labels: seq<Label>, findings: seq<Finding>, tolerance: int, row: Row, matched: seq<Candidate>) {
    && row.plantedBugs == BugCount(labels) && row.findings == |findings| && row.matches == |matched| && RowBalances(row)
    && Stable(CandidateSet(labels, findings, tolerance), Members(matched)) && Sorting.Increasing(ByLabel, matched)
    && (row.clean <==> labels != [] && BugCount(labels) == 0)
  }

  /** The three cases of the fixture loop: unknown fixture, clean fixture, fixture with planted bugs. */
  method ScoreFixture(fixture: string, labels: seq<Label>, findings: seq<Finding>, tolerance: int)
    returns (row: Row, matched: seq<Candidate>)
    ensures row.fixture == fixture && RowOf(labels, findings, tolerance, row, matched)
    ensures labels == [] || row.clean ==> row.matches == 0 && row.falsePositives == |findings|
  {
    var bugs := BugCount(labels);
    if labels == [] || bugs == 0 {
      row := Row(fixture, labels != [], 0, |findings|, 0, |findings|, 0);
      matched := [];
      NoCandidates(labels, findings, tolerance);
    } else {
      var m := MatchFindings(labels, findings, tolerance);
      row := Row(fixture, false, bugs, |findings|, |m.matches|, |m.extraFindings|, |m.missedLabels|);
      matched := m.matches;
    }
  }

  lemma {:induction false} CountedBug(labels: seq<Label>, k: nat)
    requires k < |labels| && labels[k].Bug?
    ensures BugCount(labels) > 0
  {
    if k < |labels| - 1 { CountedBug(labels[..|labels| - 1], k); }
  }

  lemma NoCandidates(labels: seq<Label>, findings: seq<Finding>, tolerance: int)
    requires BugCount(labels) == 0
    ensures CandidateSet(labels, findings, tolerance) == {}
  {
    forall c | c in CandidateSet(labels, findings, tolerance) ensures false { CountedBug(labels, c.labelIndex); }
  }

  // ---- rates -------------------------------------------------------------------------------------

  /** A rate whose empty denominator counts as perfect. */
  function Share(part: nat, whole: nat): real {
    if whole == 0 then 1.0 else part as real / whole as real
  }

  function F1(precision: real, recall: real): real {
    if precision + recall == 0.0 then 0.0 else (2.0 * precision * recall) / (precision + recall)
  }

  lemma Ratio(x: real, y: real, z: real)
    requires y != 0.0 && x == z * y
    ensures x / y == z
  {
  }

  lemma Times(p: real, q: real)
    requires q != 0.0
    ensures p / q * q == p
  {
  }

  /** The harmonic mean of tp/b and tp/c is 2tp/(b+c). */
  lemma Harmonic(a: real, b: real, c: real)
    requires a > 0.0 && b > 0.0 && c > 0.0
    ensures F1(a / b, a / c) == (2.0 * a) / (b + c)
  {
    var x, y, z := a / b, a / c, (2.0 * a) / (b + c);
    Times(a, b);
    Times(a, c);
    Times(2.0 * a, b + c);
    assert x > 0.0 && y > 0.0;
    assert z * (b + c) == 2.0 * a;
    calc {
      (z * (x + y)) * (b + c);
      (z * (b + c)) * (x + y);
      2.0 * a * x + 2.0 * a * y;
      2.0 * (y * c) * x + 2.0 * (x * b) * y;
      (2.0 * x * y) * (b + c);
    }
    Cancel(z * (x + y), 2.0 * x * y, b + c);
    Ratio(2.0 * x * y, x + y, z);
  }

  lemma Cancel(x: real, y: real, k: real)
    requires k > 0.0 && x * k == y * k
    ensures x == y
  {
    Times(x * k, k);
    assert x == (x * k) / k by { Ratio(x * k, k, x); }
    assert y == (y * k) / k by { Ratio(y * k, k, y); }
  }

  /** F1 is 2TP/(2TP+FP+FN), and 1 when there are neither bugs nor findings. */
  function ExactF1(tp: nat, fp: nat, fn: nat): real {
    if 2 * tp + fp + fn == 0 then 1.0 else (2 * tp) as real / (2 * tp + fp + fn) as real
  }

  /** The harmonic mean of precision and recall, with their conventions for empty denominators, is exactly that. */
  lemma F1Exact(tp: nat, fp: nat, fn: nat)
    ensures F1(Share(tp, tp + fp), Share(tp, tp + fn)) == ExactF1(tp, fp, fn)
  {
    if tp > 0 {
      Harmonic(tp as real, (tp + fp) as real, (tp + fn) as real);
      assert (tp + fp) as real + (tp + fn) as real == (2 * tp + fp + fn) as real;
      assert 2.0 * tp as real == (2 * tp) as real;
    }
  }

  // ---- the corpus --------------------------------------------------------------------------------

  ghost predicate Scored(
    order: seq<string>, labels: seq<Label>, findings: map<string, seq<Finding>>, tolerance: int,
    rows: seq<Row>, matched: seq<seq<Candidate>>)
  {
    && |rows| == |matched| == |order|
    && forall k :: 0 <= k < |order| ==>
         && rows[k].fixture == order[k]
         && RowOf(FixtureLabels(labels, order[k]), FixtureFindings(findings, order[k]), tolerance, rows[k], matched[k])
  }

  /** Conservation: rows add up to the totals, and the totals to the planted bugs and to the findings. */
  ghost predicate Conserved(score: Score) {
    && score.truePositives + score.falseNegatives == score.plantedBugs
    && score.truePositives + score.falsePositives == score.findings
    && Sum(score.rows) == Tally(
         score.plantedBugs, score.findings, score.truePositives, score.falsePositives, score.falseNegatives)
  }

  /** Recall, precision and F1 from the counts alone; F1 is not defined through the other two. */
  ghost predicate RatesExact(rates: Rates, tp: nat, fp: nat, fn: nat, planted: nat, found: nat) {
    rates.recall == Share(tp, planted) && rates.precision == Share(tp, found) && rates.f1 == ExactF1(tp, fp, fn)
  }

  /** The fixture loop with its running counters. */
  method ScoreRows(labels: seq<Label>, findings: map<string, seq<Finding>>, order: seq<string>, tolerance: int)
    returns (rows: seq<Row>, matched: seq<seq<Candidate>>, t: Tally, unknown: nat)
    ensures Scored(order, labels, findings, tolerance, rows, matched) && Sum(rows) == t
    ensures t.matches + t.falseNegatives == t.plantedBugs == BugsIn(order, labels)
    ensures t.matches + t.falsePositives == t.findings == FindingsIn(order, findings)
    ensures unknown == UnknownIn(order, labels, findings)
  {
    rows, matched, t, unknown := [], [], Tally(0, 0, 0, 0, 0), 0;
    for k := 0 to |order|
      invariant Counted(order[..k], labels, findings, tolerance, rows, matched, t, unknown)
    {
      var ls, fs := FixtureLabels(labels, order[k]), FixtureFindings(findings, order[k]);
      var row, m := ScoreFixture(order[k], ls, fs, tolerance);
      CountedStep(order, labels, findings, tolerance, rows, matched, t, unknown, k, row, m);
      if ls == [] { unknown := unknown + |fs|; }
      rows, matched, t := rows + [row], matched + [m], t.Add(row);
    }
    assert order[..|order|] == order;
  }

  /** What the loop has for these fixtures: their rows, and counters that are the rows' sums. */
  ghost predicate Counted(
    order: seq<string>, labels: seq<Label>, findings: map<string, seq<Finding>>, tolerance: int,
    rows: seq<Row>, matched: seq<seq<Candidate>>, t: Tally, unknown: nat)
  {
    && Scored(order, labels, findings, tolerance, rows, matched) && Sum(rows) == t
    && t.matches + t.falseNegatives == t.plantedBugs == BugsIn(order, labels)
    && t.matches + t.falsePositives == t.findings == FindingsIn(order, findings)
    && unknown == UnknownIn(order, labels, findings)
  }

  lemma CountedStep(
    order: seq<string>, labels: seq<Label>, findings: map<string, seq<Finding>>, tolerance: int,
    rows: seq<Row>, matched: seq<seq<Candidate>>, t: Tally, unknown: nat, k: nat, row: Row, m: seq<Candidate>)
    requires k < |order| && Counted(order[..k], labels, findings, tolerance, rows, matched, t, unknown)
    requires RowOf(FixtureLabels(labels, order[k]), FixtureFindings(findings, order[k]), tolerance, row, m)
    requires row.fixture == order[k]
    ensures var more := if FixtureLabels(labels, order[k]) == [] then |FixtureFindings(findings, order[k])| else 0;
      Counted(order[..k + 1], labels, findings, tolerance, rows + [row], matched + [m], t.Add(row), unknown + more)
  {
    TotalsStep(order, labels, findings, rows, k, row);
    UnknownStep(order, labels, findings, k);
    ScoredStep(order, labels, findings, tolerance, rows, matched, k, row, m);
  }

  method ScoreCorpus(labels: seq<Label>, findings: map<string, seq<Finding>>, order: seq<string>, tolerance: int)
    returns (score: Score)
    requires Enumerates(order, labels, findings)
    ensures Scored(order, labels, findings, tolerance, score.rows, score.matched)
    ensures Conserved(score)
    ensures score.plantedBugs == BugCount(labels) && score.findings == FindingsIn(order, findings)
    ensures score.unknownFixtureFindings == UnknownIn(order, labels, findings)
    ensures RatesExact(score.rates, score.truePositives, score.falsePositives, score.falseNegatives,
                       score.plantedBugs, score.findings)
  {
    var rows, matched, t, unknown := ScoreRows(labels, findings, order, tolerance);
    BugsPartition(order, labels);
    var planted := BugCount(labels);
    var rates := Rate(t.matches, t.falsePositives, t.falseNegatives, planted, t.findings);
    score := Score(rows, matched, planted, t.findings, t.matches, t.falsePositives, t.falseNegatives, unknown, rates);
  }

  method Rate(tp: nat, fp: nat, fn: nat, planted: nat, found: nat) returns (rates: Rates)
    requires planted == tp + fn && found == tp + fp
    ensures RatesExact(rates, tp, fp, fn, planted, found)
  {
    F1Exact(tp, fp, fn);
    var recall, precision := Share(tp, planted), Share(tp, found);
    rates := Rates(recall, precision, F1(precision, recall));
  }

  lemma TotalsStep(
    order: seq<string>, labels: seq<Label>, findings: map<string, seq<Finding>>, rows: seq<Row>, k: nat, row: Row)
    requires k < |order|
    ensures Sum(rows + [row]) == Sum(rows).Add(row)
    ensures BugsIn(order[..k + 1], labels) == BugsIn(order[..k], labels) + BugCount(FixtureLabels(labels, order[k]))
    ensures FindingsIn(order[..k + 1], findings) ==
            FindingsIn(order[..k], findings) + |FixtureFindings(findings, order[k])|
  {
    assert order[..k + 1][..k] == order[..k] && (rows + [row])[..|rows|] == rows;
  }

  lemma ScoredStep(
    order: seq<string>, labels: seq<Label>, findings: map<string, seq<Finding>>, tolerance: int,
    rows: seq<Row>, matched: seq<seq<Candidate>>, k: nat, row: Row, m: seq<Candidate>)
    requires k < |order| && Scored(order[..k], labels, findings, tolerance, rows, matched) && row.fixture == order[k]
    requires RowOf(FixtureLabels(labels, order[k]), FixtureFindings(findings, order[k]), tolerance, row, m)
    ensures Scored(order[..k + 1], labels, findings, tolerance, rows + [row], matched + [m])
  {
  }
}
