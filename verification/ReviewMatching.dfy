/** evals/review-seeded-bugs/score.ts: matching review findings to planted bugs, greedily under one global order. */
module ReviewMatching {
  import opened Wrappers
  import opened Sorting

  datatype Severity = Info | Minor | Major | Critical
  datatype Label =
    | Clean(fixture: string)
    | Bug(fixture: string, file: string, line: int, severity: Severity)
  datatype Finding = Finding(path: string, startLine: Option<int>, endLine: Option<int>, severity: Severity)

  datatype Candidate = Candidate(labelIndex: nat, findingIndex: nat, findingLine: int, lineOffset: int, distance: nat)

  // ---- candidates --------------------------------------------------------------------------------

  function Slashes(path: string): (r: string)
    ensures |r| == |path| && forall i :: 0 <= i < |r| ==> r[i] == if path[i] == '\\' then '/' else path[i]
  {
    seq(|path|, i requires 0 <= i < |path| => if path[i] == '\\' then '/' else path[i])
  }

  function StripDots(path: string): (r: string)
    ensures !("./" <= r)
    ensures r == path || "./" <= path
  {
    if "./" <= path then StripDots(path[2..]) else path
  }

  function Normalized(path: string): string {
    StripDots(Slashes(path))
  }

  /** The path starts with `n` pairs "./". */
  predicate DotPairs(path: string, n: nat) {
    2 * n <= |path| && forall i :: 0 <= i < n ==> path[2 * i] == '.' && path[2 * i + 1] == '/'
  }

  /** What is left is the path without its leading "./" pairs: as many as there are, and nothing else. */
  lemma StrippedExactly(path: string, r: string)
    ensures r == StripDots(path) <==> !("./" <= r) && exists n: nat :: DotPairs(path, n) && r == path[2 * n..]
  {
    var n := Stripped(path);
    forall n: nat | DotPairs(path, n) && !("./" <= path[2 * n..]) ensures path[2 * n..] == StripDots(path) {
      StripsAll(path, n);
    }
  }

  lemma {:induction false} Stripped(path: string) returns (n: nat)
    ensures DotPairs(path, n) && StripDots(path) == path[2 * n..]
  {
    n := 0;
    if "./" <= path {
      n := Stripped(path[2..]);
      PairsShift(path, n);
      n := n + 1;
    }
  }

  lemma PairsShift(path: string, n: nat)
    requires "./" <= path
    ensures DotPairs(path[2..], n) <==> DotPairs(path, n + 1)
    ensures DotPairs(path, n + 1) ==> path[2..][2 * n..] == path[2 * (n + 1)..]
  {
    assert path[0] == '.' && path[1] == '/';
    if DotPairs(path[2..], n) {
      forall i | 0 <= i < n + 1 ensures path[2 * i] == '.' && path[2 * i + 1] == '/' {
        if i > 0 { assert path[2..][2 * (i - 1)] == path[2 * i] && path[2..][2 * (i - 1) + 1] == path[2 * i + 1]; }
      }
    }
    if DotPairs(path, n + 1) {
      forall i | 0 <= i < n ensures path[2..][2 * i] == '.' && path[2..][2 * i + 1] == '/' {
        assert path[2..][2 * i] == path[2 * (i + 1)] && path[2..][2 * i + 1] == path[2 * (i + 1) + 1];
      }
    }
  }

  lemma {:induction false} StripsAll(path: string, n: nat)
    requires DotPairs(path, n) && !("./" <= path[2 * n..])
    ensures StripDots(path) == path[2 * n..]
    decreases n
  {
    if n > 0 {
      assert path[2 * 0] == '.' && path[2 * 0 + 1] == '/';
      assert "./" <= path;
      PairsShift(path, n - 1);
      StripsAll(path[2..], n - 1);
    }
  }

  /** The rewriting loop of `normalizePath` removes the leading "./" pairs of the slashed path, all of them and only them. */
  method NormalizePath(path: string) returns (r: string)
    ensures r == Normalized(path)
    ensures !("./" <= r) && exists n: nat :: DotPairs(Slashes(path), n) && r == Slashes(path)[2 * n..]
  {
    r := Slashes(path);
    while "./" <= r
      invariant StripDots(r) == Normalized(path)
      decreases |r|
    {
      r := r[2..];
    }
    StrippedExactly(Slashes(path), r);
  }

  /** Normalizing twice changes nothing more, so path comparison is an equivalence. */
  lemma NormalizedTwice(path: string)
    ensures Normalized(Normalized(path)) == Normalized(path)
  {
    NoBackslash(Slashes(path));
    assert Slashes(Normalized(path)) == Normalized(path);
  }

  lemma {:induction false} NoBackslash(path: string)
    requires '\\' !in path
    ensures '\\' !in StripDots(path)
  {
    if "./" <= path { NoBackslash(path[2..]); }
  }

  function FindingLine(f: Finding): Option<int> {
    if f.startLine.Some? && f.startLine.value > 0 then f.startLine
    else if f.endLine.Some? && f.endLine.value > 0 then f.endLine
    else None
  }

  function Abs(x: int): nat {
    if x < 0 then -x else x
  }

  /** Label `l` and finding `f` are close enough in one file to be the same bug. */
  predicate Near(labels: seq<Label>, findings: seq<Finding>, tolerance: int, l: nat, f: nat) {
    && l < |labels| && f < |findings| && labels[l].Bug? && FindingLine(findings[f]).Some?
    && Normalized(findings[f].path) == Normalized(labels[l].file)
    && Abs(FindingLine(findings[f]).value - labels[l].line) <= tolerance
  }

  function CandidateOf(labels: seq<Label>, findings: seq<Finding>, tolerance: int, l: nat, f: nat): Candidate
    requires Near(labels, findings, tolerance, l, f)
  {
    var line := FindingLine(findings[f]).value;
    Candidate(l, f, line, line - labels[l].line, Abs(line - labels[l].line))
  }

  ghost predicate IsCandidate(labels: seq<Label>, findings: seq<Finding>, tolerance: int, c: Candidate) {
    Near(labels, findings, tolerance, c.labelIndex, c.findingIndex)
    && c == CandidateOf(labels, findings, tolerance, c.labelIndex, c.findingIndex)
  }

  /** Smaller distance first, then the earlier finding, then the earlier label. */
  predicate Closer(a: Candidate, b: Candidate) {
    || a.distance < b.distance
    || (a.distance == b.distance && a.findingIndex < b.findingIndex)
    || (a.distance == b.distance && a.findingIndex == b.findingIndex && a.labelIndex < b.labelIndex)
  }

  predicate Earlier(a: Candidate, b: Candidate) {
    a.labelIndex < b.labelIndex || (a.labelIndex == b.labelIndex && a.findingIndex < b.findingIndex)
  }

  /** One label's candidates in finding order. */
  method LabelCandidates(labels: seq<Label>, findings: seq<Finding>, tolerance: int, l: nat) returns (r: seq<Candidate>)
    requires l < |labels| && labels[l].Bug?
    ensures forall c :: c in r <==> IsCandidate(labels, findings, tolerance, c) && c.labelIndex == l
    ensures forall i, j :: 0 <= i < j < |r| ==> Earlier(r[i], r[j])
  {
    r := [];
    for f := 0 to |findings|
      invariant forall c :: c in r <==> IsCandidate(labels, findings, tolerance, c) && c.labelIndex == l && c.findingIndex < f
      invariant forall i, j :: 0 <= i < j < |r| ==> Earlier(r[i], r[j])
    {
      if Near(labels, findings, tolerance, l, f) {
        forall i | 0 <= i < |r| ensures r[i].labelIndex == l && r[i].findingIndex < f { assert r[i] in r; }
        r := r + [CandidateOf(labels, findings, tolerance, l, f)];
      }
    }
  }

  method Candidates(labels: seq<Label>, findings: seq<Finding>, tolerance: int) returns (r: seq<Candidate>)
    ensures forall c :: c in r <==> IsCandidate(labels, findings, tolerance, c)
    ensures forall i, j :: 0 <= i < j < |r| ==> Earlier(r[i], r[j])
  {
    r := [];
    for l := 0 to |labels|
      invariant forall c :: c in r <==> IsCandidate(labels, findings, tolerance, c) && c.labelIndex < l
      invariant forall i, j :: 0 <= i < j < |r| ==> Earlier(r[i], r[j])
    {
      if labels[l].Bug? {
        var more := LabelCandidates(labels, findings, tolerance, l);
        forall i | 0 <= i < |r| ensures r[i].labelIndex < l { assert r[i] in r; }
        forall i | 0 <= i < |more| ensures more[i].labelIndex == l { assert more[i] in more; }
        r := r + more;
      }
    }
  }

  // ---- greedy matchings --------------------------------------------------------------------------

  predicate Conflict(a: Candidate, b: Candidate) {
    a.labelIndex == b.labelIndex || a.findingIndex == b.findingIndex
  }

  /** No label and no finding is used twice. */
  ghost predicate Matching(m: set<Candidate>) {
    forall a, b :: a in m && b in m && a != b ==> !Conflict(a, b)
  }

  /** Every candidate left out lost to a closer one that took its label or its finding: none blocks the matching. */
  ghost predicate Stable(candidates: set<Candidate>, m: set<Candidate>) {
    && m <= candidates && Matching(m)
    && forall c :: c in candidates && c !in m ==> Beaten(m, c)
  }

  ghost predicate Beaten(m: set<Candidate>, c: Candidate) {
    exists w :: w in m && Closer(w, c) && Conflict(w, c)
  }

  /** There is only one stable matching over any candidates: the order leaves no choice. */
  lemma StableIsUnique(candidates: set<Candidate>, a: set<Candidate>, b: set<Candidate>)
    requires Stable(candidates, a) && Stable(candidates, b)
    ensures a == b
  {
    forall c | c in a ensures c in b { Agree(candidates, a, b, c); }
    forall c | c in b ensures c in a { Agree(candidates, b, a, c); }
  }

  /** A member of one that another lacks would have lost there to a closer one, which the first must have too. */
  lemma {:induction false} Agree(candidates: set<Candidate>, a: set<Candidate>, b: set<Candidate>, c: Candidate)
    requires Stable(candidates, a) && Stable(candidates, b) && c in a
    ensures c in b
    decreases c.distance, c.findingIndex, c.labelIndex
  {
    if c !in b {
      var w :| w in b && Closer(w, c) && Conflict(w, c);
      Agree(candidates, b, a, w);
    }
  }

  /** A stable matching is maximal: no candidate can be added. */
  lemma StableIsMaximal(candidates: set<Candidate>, m: set<Candidate>, c: Candidate)
    requires Stable(candidates, m) && c in candidates && c !in m
    ensures !Matching(m + {c})
  {
    var w :| w in m && Closer(w, c) && Conflict(w, c);
    assert w in m + {c} && c in m + {c};
  }

  ghost function LabelsOf(m: set<Candidate>): set<nat> {
    set c | c in m :: c.labelIndex
  }

  ghost function FindingsOf(m: set<Candidate>): set<nat> {
    set c | c in m :: c.findingIndex
  }

  lemma MatchingSizes(m: set<Candidate>)
    requires Matching(m)
    ensures |LabelsOf(m)| == |m| && |FindingsOf(m)| == |m|
  {
    LabelsSize(m);
    FindingsSize(m);
  }

  lemma {:induction false} LabelsSize(m: set<Candidate>)
    requires Matching(m)
    ensures |LabelsOf(m)| == |m|
  {
    if m != {} {
      var c :| c in m;
      LabelsSize(m - {c});
      assert LabelsOf(m) == LabelsOf(m - {c}) + {c.labelIndex};
    }
  }

  lemma {:induction false} FindingsSize(m: set<Candidate>)
    requires Matching(m)
    ensures |FindingsOf(m)| == |m|
  {
    if m != {} {
      var c :| c in m;
      FindingsSize(m - {c});
      assert FindingsOf(m) == FindingsOf(m - {c}) + {c.findingIndex};
    }
  }

  lemma SharesAnEnd(candidates: set<Candidate>, m: set<Candidate>, c: Candidate)
    requires Stable(candidates, m) && c in candidates
    ensures c.labelIndex in LabelsOf(m) || c.findingIndex in FindingsOf(m)
  {
    if c !in m {
      var w :| w in m && Closer(w, c) && Conflict(w, c);
      assert w.labelIndex in LabelsOf(m) && w.findingIndex in FindingsOf(m);
    }
  }

  lemma NoMoreThanLabels(m: set<Candidate>, part: set<Candidate>)
    requires Matching(m) && Matching(part) && LabelsOf(part) <= LabelsOf(m)
    ensures |part| <= |m|
  {
    LabelsSize(m);
    LabelsSize(part);
    SubsetSize(LabelsOf(part), LabelsOf(m));
  }

  lemma NoMoreThanFindings(m: set<Candidate>, part: set<Candidate>)
    requires Matching(m) && Matching(part) && FindingsOf(part) <= FindingsOf(m)
    ensures |part| <= |m|
  {
    FindingsSize(m);
    FindingsSize(part);
    SubsetSize(FindingsOf(part), FindingsOf(m));
  }

  /** Greedy is at least half of optimal: no valid matching within the tolerance is more than twice as large. */
  lemma StableIsHalfOptimal(candidates: set<Candidate>, m: set<Candidate>, other: set<Candidate>)
    requires Stable(candidates, m) && other <= candidates && Matching(other)
    ensures |other| <= 2 * |m|
  {
    var byLabel := set c | c in other && c.labelIndex in LabelsOf(m);
    var rest := other - byLabel;
    forall c | c in rest ensures c.findingIndex in FindingsOf(m) {
      SharesAnEnd(candidates, m, c);
    }
    NoMoreThanLabels(m, byLabel);
    NoMoreThanFindings(m, rest);
    assert other == byLabel + rest;
  }

  // ---- which line counts -------------------------------------------------------------------------

  predicate StartsAt(f: Finding, n: int) {
    f.startLine == Some(n) && n > 0
  }

  predicate HasStart(f: Finding) {
    f.startLine.Some? && f.startLine.value > 0
  }

  /** The line a finding is about: its positive start line, or its positive end line where it has none. */
  predicate AboutLine(f: Finding, n: int) {
    n > 0 && (f.startLine == Some(n) || (!HasStart(f) && f.endLine == Some(n)))
  }

  /** The candidates, said from the fields alone. */
  lemma CandidateExactly(labels: seq<Label>, findings: seq<Finding>, tolerance: int, c: Candidate)
    ensures c in CandidateSet(labels, findings, tolerance) <==>
      && c.labelIndex < |labels| && labels[c.labelIndex].Bug? && c.findingIndex < |findings|
      && Normalized(findings[c.findingIndex].path) == Normalized(labels[c.labelIndex].file)
      && AboutLine(findings[c.findingIndex], c.findingLine)
      && c.lineOffset == c.findingLine - labels[c.labelIndex].line
      && c.distance == (if c.lineOffset < 0 then -c.lineOffset else c.lineOffset) && c.distance <= tolerance
  {
    if IsCandidate(labels, findings, tolerance, c) {
      assert c == CandidateOf(labels, findings, tolerance, c.labelIndex, c.findingIndex);
      assert c in CandidateSet(labels, findings, tolerance);
    }
  }

  /** Two lists of findings that differ only in end lines where both have the same positive start line. */
  ghost predicate SameStarts(a: seq<Finding>, b: seq<Finding>) {
    && |a| == |b|
    && forall i :: 0 <= i < |a| ==>
         a[i] == b[i] || (HasStart(a[i]) && a[i].startLine == b[i].startLine && a[i].path == b[i].path)
  }

  /** The end line of a finding with a positive start line changes neither the candidates nor the matching. */
  lemma EndLineIsIgnored(labels: seq<Label>, a: seq<Finding>, b: seq<Finding>, tolerance: int, m: set<Candidate>)
    requires SameStarts(a, b)
    ensures CandidateSet(labels, a, tolerance) == CandidateSet(labels, b, tolerance)
    ensures Stable(CandidateSet(labels, a, tolerance), m) <==> Stable(CandidateSet(labels, b, tolerance), m)
  {
    forall c ensures c in CandidateSet(labels, a, tolerance) <==> c in CandidateSet(labels, b, tolerance) {
      CandidateExactly(labels, a, tolerance, c);
      CandidateExactly(labels, b, tolerance, c);
    }
  }

  /** A finding that starts on the bug's line in its file is a candidate at distance zero. */
  lemma ExactLineIsCandidate(labels: seq<Label>, findings: seq<Finding>, tolerance: int, l: nat, f: nat)
    requires l < |labels| && labels[l].Bug? && f < |findings| && tolerance >= 0
    requires Normalized(findings[f].path) == Normalized(labels[l].file) && StartsAt(findings[f], labels[l].line)
    ensures Candidate(l, f, labels[l].line, 0, 0) in CandidateSet(labels, findings, tolerance)
  {
    CandidateExactly(labels, findings, tolerance, Candidate(l, f, labels[l].line, 0, 0));
  }

  /** Without a positive start line the positive end line takes its place. */
  lemma EndLineTakesPart(labels: seq<Label>, findings: seq<Finding>, tolerance: int, l: nat, f: nat, n: int)
    requires l < |labels| && labels[l].Bug? && f < |findings|
    requires !HasStart(findings[f]) && findings[f].endLine == Some(n) && n > 0
    ensures (exists c :: c in CandidateSet(labels, findings, tolerance) && c.labelIndex == l && c.findingIndex == f) <==>
      Normalized(findings[f].path) == Normalized(labels[l].file) && labels[l].line - tolerance <= n <= labels[l].line + tolerance
  {
    forall c ensures c in CandidateSet(labels, findings, tolerance) && c.labelIndex == l && c.findingIndex == f ==> c.findingLine == n {
      CandidateExactly(labels, findings, tolerance, c);
    }
    var offset := n - labels[l].line;
    var c := Candidate(l, f, n, offset, Abs(offset));
    CandidateExactly(labels, findings, tolerance, c);
    forall d | d in CandidateSet(labels, findings, tolerance) && d.labelIndex == l && d.findingIndex == f ensures d == c {
      CandidateExactly(labels, findings, tolerance, d);
    }
  }

  /** A finding without a positive line is never matched: it is always extra. */
  lemma LinelessIsExtra(labels: seq<Label>, findings: seq<Finding>, tolerance: int, m: set<Candidate>, f: nat)
    requires Stable(CandidateSet(labels, findings, tolerance), m) && f < |findings|
    requires forall n :: !AboutLine(findings[f], n)
    ensures f !in FindingsOf(m) && f in Unused(|findings|, FindingsOf(m))
  {
    forall c | c in m ensures c.findingIndex != f { CandidateExactly(labels, findings, tolerance, c); }
    UnusedExactly(|findings|, FindingsOf(m), f);
  }

  // ---- which candidates win ------------------------------------------------------------------------

  /** Nearer, or as near and of an earlier finding, or of the same finding and an earlier label. */
  predicate Preferred(a: Candidate, b: Candidate) {
    if a.distance != b.distance then a.distance < b.distance
    else if a.findingIndex != b.findingIndex then a.findingIndex < b.findingIndex
    else a.labelIndex < b.labelIndex
  }

  /** A candidate preferred to all it competes with is matched, in every stable matching. */
  lemma PreferredIsMatched(candidates: set<Candidate>, m: set<Candidate>, c: Candidate)
    requires Stable(candidates, m) && c in candidates
    requires forall d :: d in candidates && d != c && Conflict(c, d) ==> Preferred(c, d)
    ensures c in m
  {
  }

  // ---- the algorithm -----------------------------------------------------------------------------

  ghost function CandidateSet(labels: seq<Label>, findings: seq<Finding>, tolerance: int): set<Candidate> {
    set l: nat, f: nat | l < |labels| && f < |findings| && Near(labels, findings, tolerance, l, f) ::
      CandidateOf(labels, findings, tolerance, l, f)
  }

  ghost function Members(s: seq<Candidate>): set<Candidate> {
    set c | c in s
  }

  /** The loop over sorted candidates with its two used-sets. */
  method Greedy(order: seq<Candidate>) returns (matches: seq<Candidate>)
    requires Increasing(Closer, order)
    ensures Stable(Members(order), Members(matches)) && Increasing(Closer, matches)
  {
    var usedLabels: set<nat>, usedFindings: set<nat> := {}, {};
    matches := [];
    for i := 0 to |order|
      invariant Stable(Members(order[..i]), Members(matches)) && Increasing(Closer, matches)
      invariant usedLabels == LabelsOf(Members(matches)) && usedFindings == FindingsOf(Members(matches))
    {
      var c := order[i];
      GreedyStep(order, i, matches);
      if c.labelIndex !in usedLabels && c.findingIndex !in usedFindings {
        usedLabels := usedLabels + {c.labelIndex};
        usedFindings := usedFindings + {c.findingIndex};
        matches := matches + [c];
      }
    }
    assert order[..|order|] == order;
  }

  lemma GreedyStep(order: seq<Candidate>, i: nat, matches: seq<Candidate>)
    requires Increasing(Closer, order) && i < |order|
    requires Stable(Members(order[..i]), Members(matches)) && Increasing(Closer, matches)
    ensures var c, m := order[i], Members(matches);
      if c.labelIndex !in LabelsOf(m) && c.findingIndex !in FindingsOf(m) then
        && Stable(Members(order[..i + 1]), Members(matches + [c])) && Increasing(Closer, matches + [c])
        && LabelsOf(Members(matches + [c])) == LabelsOf(m) + {c.labelIndex}
        && FindingsOf(Members(matches + [c])) == FindingsOf(m) + {c.findingIndex}
      else Stable(Members(order[..i + 1]), m)
  {
    var c, m := order[i], Members(matches);
    assert Members(order[..i + 1]) == Members(order[..i]) + {c};
    assert Members(matches + [c]) == m + {c};
    forall w | w in m ensures Closer(w, c) {
      assert w in Members(order[..i]);
      var j :| 0 <= j < i && order[j] == w;
    }
    forall k | 0 <= k < |matches| ensures Closer(matches[k], c) { assert matches[k] in m; }
    if c.labelIndex !in LabelsOf(m) && c.findingIndex !in FindingsOf(m) {
      forall d | d in Members(order[..i]) && d !in m + {c} ensures Beaten(m + {c}, d) {
        var w :| w in m && Closer(w, d) && Conflict(w, d);
        assert w in m + {c};
      }
    } else {
      var w :| w in m && Conflict(w, c);
      assert Beaten(m, c);
    }
  }

  predicate ByLabel(a: Candidate, b: Candidate) {
    a.labelIndex < b.labelIndex
  }

  datatype MatchResult = MatchResult(matches: seq<Candidate>, missedLabels: seq<nat>, extraFindings: seq<nat>)

  /** Bug labels among the first `n` whose index is not used. */
  function Unmatched(labels: seq<Label>, n: nat, used: set<nat>): (r: seq<nat>)
    requires n <= |labels|
  {
    if n == 0 then []
    else Unmatched(labels, n - 1, used) + (if labels[n - 1].Bug? && n - 1 !in used then [n - 1] else [])
  }

  function Unused(n: nat, used: set<nat>): seq<nat> {
    if n == 0 then [] else Unused(n - 1, used) + (if n - 1 !in used then [n - 1] else [])
  }

  function BugCount(labels: seq<Label>): nat {
    if labels == [] then 0 else BugCount(labels[..|labels| - 1]) + (if labels[|labels| - 1].Bug? then 1 else 0)
  }

  ghost function UsedBelow(used: set<nat>, n: nat): set<nat> {
    set k | k in used && k < n
  }

  lemma UsedStep(used: set<nat>, n: nat)
    ensures UsedBelow(used, n + 1) == UsedBelow(used, n) + (if n in used then {n} else {})
    ensures n !in UsedBelow(used, n)
  {
  }

  lemma UsedSize(used: set<nat>, n: nat)
    ensures |UsedBelow(used, n + 1)| == |UsedBelow(used, n)| + (if n in used then 1 else 0)
  {
    UsedStep(used, n);
  }

  /** Each planted bug is matched or missed, never both. */
  lemma {:induction false} UnmatchedCount(labels: seq<Label>, n: nat, used: set<nat>)
    requires n <= |labels| && forall k :: k in used ==> k < |labels| && labels[k].Bug?
    ensures |Unmatched(labels, n, used)| + |UsedBelow(used, n)| == BugCount(labels[..n])
  {
    if n > 0 {
      UnmatchedCount(labels, n - 1, used);
      UsedStep(used, n - 1);
      assert labels[..n][..n - 1] == labels[..n - 1];
    }
  }

  lemma {:induction false} LeftoversExactly(labels: seq<Label>, n: nat, used: set<nat>, k: nat)
    requires n <= |labels|
    ensures k in Unmatched(labels, n, used) <==> k < n && labels[k].Bug? && k !in used
    ensures k in Unused(n, used) <==> k < n && k !in used
  {
    if n > 0 {
      LeftoversExactly(labels, n - 1, used, k);
    }
  }

  lemma {:induction false} UnusedExactly(n: nat, used: set<nat>, k: nat)
    ensures k in Unused(n, used) <==> k < n && k !in used
  {
    if n > 0 { UnusedExactly(n - 1, used, k); }
  }

  /** Leftovers are listed in ascending order. */
  lemma {:induction false} LeftoversAscend(labels: seq<Label>, n: nat, used: set<nat>)
    requires n <= |labels|
    ensures Ascends(Unmatched(labels, n, used), n) && Ascends(Unused(n, used), n)
  {
    if n > 0 {
      LeftoversAscend(labels, n - 1, used);
      AscendsOn(Unmatched(labels, n - 1, used), n - 1);
      AscendsOn(Unused(n - 1, used), n - 1);
    }
  }

  lemma AscendsOn(s: seq<nat>, n: nat)
    requires Ascends(s, n)
    ensures Ascends(s, n + 1) && Ascends(s + [n], n + 1)
  {
  }

  ghost predicate Ascends(s: seq<nat>, bound: nat) {
    (forall i :: 0 <= i < |s| ==> s[i] < bound) && forall i, j :: 0 <= i < j < |s| ==> s[i] < s[j]
  }

  ghost function BugPositions(labels: seq<Label>): set<nat> {
    set l: nat | l < |labels| && labels[l].Bug?
  }

  /** The number of planted bugs is the number of positions that hold one. */
  lemma {:induction false} BugCountExactly(labels: seq<Label>)
    ensures BugCount(labels) == |BugPositions(labels)|
  {
    if labels == [] {
      assert BugPositions(labels) == {};
    } else {
      var n := |labels| - 1;
      BugCountExactly(labels[..n]);
      assert BugPositions(labels) == BugPositions(labels[..n]) + (if labels[n].Bug? then {n} else {});
    }
  }

  lemma {:induction false} UnusedCount(n: nat, used: set<nat>)
    ensures |Unused(n, used)| + |UsedBelow(used, n)| == n
  {
    if n > 0 {
      UnusedCount(n - 1, used);
      UsedStep(used, n - 1);
    }
  }

  /**
   * The matching is the stable one over all pairs within the tolerance, listed by label; what is left over is
   * exactly the rest of the planted bugs and of the findings.
   */
  method MatchFindings(labels: seq<Label>, findings: seq<Finding>, tolerance: int) returns (r: MatchResult)
    ensures Stable(CandidateSet(labels, findings, tolerance), Members(r.matches))
    ensures forall m :: Stable(CandidateSet(labels, findings, tolerance), m) ==> m == Members(r.matches)
    ensures Increasing(ByLabel, r.matches)
    ensures forall i, j :: 0 <= i < j < |r.matches| ==> r.matches[i].labelIndex < r.matches[j].labelIndex
    ensures r.missedLabels == Unmatched(labels, |labels|, LabelsOf(Members(r.matches)))
    ensures r.extraFindings == Unused(|findings|, FindingsOf(Members(r.matches)))
    ensures |r.matches| + |r.missedLabels| == BugCount(labels)
    ensures |r.matches| + |r.extraFindings| == |findings|
  {
    var chosen := Choose(labels, findings, tolerance);
    SortByLabel(chosen);
    var matches := Sort(ByLabel, chosen);
    var usedLabels := set c | c in matches :: c.labelIndex;
    var usedFindings := set c | c in matches :: c.findingIndex;
    Leftovers(labels, findings, tolerance, matches);
    OnlyStable(labels, findings, tolerance, Members(matches));
    assert usedLabels == LabelsOf(Members(matches)) && usedFindings == FindingsOf(Members(matches));
    r := MatchResult(matches, Unmatched(labels, |labels|, usedLabels), Unused(|findings|, usedFindings));
  }

  lemma OnlyStable(labels: seq<Label>, findings: seq<Finding>, tolerance: int, found: set<Candidate>)
    requires Stable(CandidateSet(labels, findings, tolerance), found)
    ensures forall m :: Stable(CandidateSet(labels, findings, tolerance), m) ==> m == found
  {
    forall m | Stable(CandidateSet(labels, findings, tolerance), m) ensures m == found {
      StableIsUnique(CandidateSet(labels, findings, tolerance), m, found);
    }
  }

  /** Collect, sort by closeness, and take greedily. */
  method Choose(labels: seq<Label>, findings: seq<Finding>, tolerance: int) returns (chosen: seq<Candidate>)
    ensures Stable(CandidateSet(labels, findings, tolerance), Members(chosen)) && Increasing(Closer, chosen)
  {
    var candidates := Candidates(labels, findings, tolerance);
    assert forall a, b :: Earlier(a, b) ==> a != b;
    SortIncreasing(Closer, candidates, candidates);
    var order := Sort(Closer, candidates);
    chosen := Greedy(order);
    MembersSorted(candidates, order);
    assert Members(candidates) == CandidateSet(labels, findings, tolerance) by {
      forall c | IsCandidate(labels, findings, tolerance, c) ensures c in CandidateSet(labels, findings, tolerance) {}
    }
  }

  lemma MembersSorted(a: seq<Candidate>, b: seq<Candidate>)
    requires multiset(a) == multiset(b)
    ensures Members(a) == Members(b)
  {
    forall c ensures c in a <==> c in b { SameElements(a, b, c); }
  }

  lemma SortByLabel(chosen: seq<Candidate>)
    requires Matching(Members(chosen)) && Increasing(Closer, chosen)
    ensures Increasing(ByLabel, Sort(ByLabel, chosen)) && Members(Sort(ByLabel, chosen)) == Members(chosen)
  {
    assert forall a, b :: a in chosen && b in chosen && a != b ==> a in Members(chosen) && b in Members(chosen) && !Conflict(a, b);
    SortIncreasing(ByLabel, chosen, chosen);
    MembersSorted(Sort(ByLabel, chosen), chosen);
  }

  lemma {:induction false} MembersSize(s: seq<Candidate>)
    requires Increasing(ByLabel, s)
    ensures |Members(s)| == |s|
  {
    if s != [] {
      var init, last := s[..|s| - 1], s[|s| - 1];
      MembersSize(init);
      assert Members(s) == Members(init) + {last};
      assert last !in init;
    }
  }

  lemma Leftovers(labels: seq<Label>, findings: seq<Finding>, tolerance: int, matches: seq<Candidate>)
    requires Stable(CandidateSet(labels, findings, tolerance), Members(matches)) && Increasing(ByLabel, matches)
    ensures |matches| + |Unmatched(labels, |labels|, LabelsOf(Members(matches)))| == BugCount(labels)
    ensures |matches| + |Unused(|findings|, FindingsOf(Members(matches)))| == |findings|
  {
    var m := Members(matches);
    MembersSize(matches);
    MatchingSizes(m);
    forall c | c in m ensures IsCandidate(labels, findings, tolerance, c) { assert c in CandidateSet(labels, findings, tolerance); }
    UnmatchedCount(labels, |labels|, LabelsOf(m));
    UnusedCount(|findings|, FindingsOf(m));
    assert UsedBelow(LabelsOf(m), |labels|) == LabelsOf(m);
    assert UsedBelow(FindingsOf(m), |findings|) == FindingsOf(m);
    assert labels[..|labels|] == labels;
  }
}
