/** Optional values, refusable results and the few sequence notions the other modules share. */
module Wrappers {
  datatype Option<+T> = None | Some(value: T)

  /** The error codes of `CodingError`, refined by the guard that raised it where a property needs to tell guards apart. */
  datatype Refusal =
    | InvalidPlan(plan: PlanFault)
    | FastGateFailed
    | StaleRevision
    | InvalidReceipt(receipt: ReceiptFault)
    | NativeFailure

  datatype PlanFault =
    | DuplicateChange | DuplicateCheck | MissingRequiredCheck | DuplicateNativeOwner
    | BrokenHistory | HistoryPastHead | UnknownBase | DuplicateConfiguredCheck
    | InvalidPath | NewBeforeExisting | UnavailableCheck | DescendantsNotRetained

  datatype ReceiptFault =
    | NotExact | Misattributed | MissingChanges | Reordered | MissingImplementation | UnplannedCheck | NoTrigger

  datatype Outcome<+T> = Ok(value: T) | Refused(error: Refusal)

  ghost predicate Pos<T>(s: seq<T>, i: int) {
    0 <= i < |s|
  }

  /** No value occurs at two positions. Instantiated only through `Pos`, so the lemmas below are its interface. */
  ghost predicate Distinct<T>(s: seq<T>) {
    forall i, j {:trigger Pos(s, i), Pos(s, j)} :: Pos(s, i) && Pos(s, j) && i < j ==> s[i] != s[j]
  }

  lemma DistinctAt<T>(s: seq<T>, i: nat, j: nat)
    requires Distinct(s) && i < j < |s|
    ensures s[i] != s[j]
  {
    assert Pos(s, i) && Pos(s, j);
  }

  lemma DistinctPrefix<T>(s: seq<T>, t: seq<T>)
    requires s <= t
    ensures Distinct(t) ==> Distinct(s)
  {
    assert forall i :: Pos(s, i) ==> Pos(t, i) && t[i] == s[i];
  }

  /** One step of "refuse if seen, else add": distinctness grows by a fresh value and is lost for good otherwise. */
  lemma Admit<T>(s: seq<T>, x: T)
    ensures Distinct(s + [x]) <==> Distinct(s) && x !in s
  {
    var t := s + [x];
    DistinctPrefix(s, t);
    assert Pos(t, |s|);
    assert forall i :: Pos(t, i) && i < |s| ==> Pos(s, i) && t[i] == s[i];
    assert forall i :: Pos(s, i) ==> Pos(t, i);
    assert x in s ==> exists i :: Pos(s, i) && s[i] == x;
  }

  /** Induction from `n` down. */
  lemma {:induction false} Downward(holds: nat -> bool, n: nat, k: nat)
    requires k <= n && holds(n) && forall j: nat | j < n && holds(j + 1) :: holds(j)
    ensures holds(k)
    decreases n - k
  {
    if k < n { Downward(holds, n, k + 1); }
  }

  function Concat<T>(parts: seq<seq<T>>): seq<T> {
    if parts == [] then [] else Concat(parts[..|parts| - 1]) + parts[|parts| - 1]
  }

  lemma ConcatSnoc<T>(parts: seq<seq<T>>, part: seq<T>)
    ensures Concat(parts + [part]) == Concat(parts) + part
  {
    assert (parts + [part])[..|parts|] == parts;
  }

  /** `whole` is `n` consecutive parts, part `k` being one that `fits` allows at position `k`. */
  ghost predicate Composed<T(!new)>(fits: (nat, seq<T>) -> bool, n: nat, whole: seq<T>) {
    exists parts: seq<seq<T>> ::
      |parts| == n && whole == Concat(parts) && forall k: nat :: k < n ==> fits(k, parts[k])
  }

  lemma ComposedNone<T(!new)>(fits: (nat, seq<T>) -> bool)
    ensures Composed(fits, 0, [])
  {
    var none: seq<seq<T>> := [];
    assert |none| == 0 && Concat(none) == [];
  }

  lemma ComposedMore<T(!new)>(fits: (nat, seq<T>) -> bool, n: nat, whole: seq<T>, part: seq<T>)
    requires Composed(fits, n, whole) && fits(n, part)
    ensures Composed(fits, n + 1, whole + part)
  {
    var parts: seq<seq<T>> :| |parts| == n && whole == Concat(parts) && forall k: nat :: k < n ==> fits(k, parts[k]);
    ConcatSnoc(parts, part);
    var more := parts + [part];
    assert |more| == n + 1 && forall k: nat :: k < n + 1 ==> fits(k, more[k]);
  }

  lemma PrefixSnoc<T>(s: seq<T>, i: nat)
    requires i < |s|
    ensures s[..i + 1] == s[..i] + [s[i]]
  {
  }

  lemma {:induction false} SubsetSize<T>(a: set<T>, b: set<T>)
    requires a <= b
    ensures |a| <= |b|
  {
    if a != {} {
      var x :| x in a;
      SubsetSize(a - {x}, b - {x});
    }
  }

  /** A loop that refuses a value already in its insertion-ordered set `seen` and otherwise adds it. */
  method Claim<T(==)>(seen: seq<T>, more: seq<T>) returns (r: Option<seq<T>>)
    requires Distinct(seen)
    ensures r.Some? <==> Distinct(seen + more)
    ensures r.Some? ==> r.value == seen + more
  {
    var claimed := seen;
    for k := 0 to |more|
      invariant claimed == seen + more[..k] && Distinct(claimed)
    {
      Admit(claimed, more[k]);
      if more[k] in claimed {
        DistinctPrefix(claimed + [more[k]], seen + more);
        return None;
      }
      claimed := claimed + [more[k]];
    }
    assert claimed == seen + more;
    r := Some(claimed);
  }

  method AllDistinct<T(==)>(s: seq<T>) returns (ok: bool)
    ensures ok <==> Distinct(s)
  {
    assert [] + s == s;
    var r := Claim([], s);
    ok := r.Some?;
  }

  /** `[...new Set(values)]`: first occurrences, in order. */
  function Dedup<T(==, !new)>(s: seq<T>): (d: seq<T>)
    ensures Distinct(d)
    ensures forall x :: x in d <==> x in s
  {
    if s == [] then []
    else
      var d := Dedup(s[..|s| - 1]);
      var x := s[|s| - 1];
      assert s == s[..|s| - 1] + [x];
      if x in d then d else Admit(d, x); d + [x]
  }

  /** The position of the first `x`. */
  function First<T(==)>(s: seq<T>, x: T): (i: nat)
    requires x in s
    ensures i < |s| && s[i] == x && forall j :: 0 <= j < i ==> s[j] != x
  {
    if s[0] == x then 0 else 1 + First(s[1..], x)
  }

  /** `d` lists the values of `s`, each once, in order of first occurrence. */
  ghost predicate InFirstOrder<T(!new)>(d: seq<T>, s: seq<T>) {
    && Distinct(d) && (forall x :: x in d <==> x in s)
    && forall i, j {:trigger Pos(d, i), Pos(d, j)} :: Pos(d, i) && Pos(d, j) && i < j ==> First(s, d[i]) < First(s, d[j])
  }

  lemma FirstUnmoved<T>(s: seq<T>, more: seq<T>, x: T)
    requires x in s
    ensures First(s + more, x) == First(s, x)
  {
    var i, j := First(s, x), First(s + more, x);
    assert (s + more)[i] == x;
    assert j <= i && (s + more)[j] == s[j];
  }

  lemma FirstNew<T>(s: seq<T>, x: T)
    requires x !in s
    ensures First(s + [x], x) == |s|
  {
    assert forall j :: 0 <= j < |s| ==> (s + [x])[j] == s[j] && s[j] in s;
  }

  lemma OrderKept<T(!new)>(d: seq<T>, s: seq<T>, x: T)
    requires InFirstOrder(d, s) && x in d
    ensures InFirstOrder(d, s + [x])
  {
    forall i | Pos(d, i) ensures First(s + [x], d[i]) == First(s, d[i]) { FirstUnmoved(s, [x], d[i]); }
  }

  lemma OrderGrows<T(!new)>(d: seq<T>, s: seq<T>, x: T)
    requires InFirstOrder(d, s) && x !in s
    ensures InFirstOrder(d + [x], s + [x])
  {
    var more := d + [x];
    Admit(d, x);
    FirstNew(s, x);
    forall i, j | Pos(more, i) && Pos(more, j) && i < j ensures First(s + [x], more[i]) < First(s + [x], more[j]) {
      assert Pos(d, i);
      FirstUnmoved(s, [x], d[i]);
      if j < |d| {
        assert Pos(d, j);
        FirstUnmoved(s, [x], d[j]);
      }
    }
  }

  lemma {:induction false} DedupInOrder<T(!new)>(s: seq<T>)
    ensures InFirstOrder(Dedup(s), s)
  {
    if s != [] {
      var init, x := s[..|s| - 1], s[|s| - 1];
      assert s == init + [x];
      DedupInOrder(init);
      if x in Dedup(init) { OrderKept(Dedup(init), init, x); } else { OrderGrows(Dedup(init), init, x); }
    }
  }

  lemma {:induction false} InConcat<T>(parts: seq<seq<T>>, x: T)
    ensures x in Concat(parts) <==> exists k :: 0 <= k < |parts| && x in parts[k]
  {
    if parts != [] {
      var n := |parts| - 1;
      InConcat(parts[..n], x);
      assert forall k :: 0 <= k < n ==> parts[..n][k] == parts[k];
    }
  }
}
