/** HASH_SRT: the elements of a table are sorted in place, by merging ever
    longer runs of its list. */
module Sorting {
  import opened HashTables

  /** A comparison function, as the keys of two elements determine it. */
  type Compare = (nat, nat) -> int

  // ---------------------------------------------------------------------
  // Merging
  // ---------------------------------------------------------------------

  function Merge(cmp: Compare, p: seq<Handle>, q: seq<Handle>): (r: seq<Handle>)
    ensures |r| == |p| + |q|
    decreases |p| + |q|
  {
    if p == [] then q
    else if q == [] then p
    else if cmp(p[0].key, q[0].key) <= 0 then [p[0]] + Merge(cmp, p[1..], q)
    else [q[0]] + Merge(cmp, p, q[1..])
  }

  function Least(a: nat, b: nat): nat {
    if a <= b then a else b
  }

  /** A pass merges the runs of `n` elements in pairs. */
  function MergePass(cmp: Compare, s: seq<Handle>, n: nat): (r: seq<Handle>)
    requires n > 0
    ensures |r| == |s|
    decreases |s|
  {
    if s == [] then []
    else
      var mid := Least(n, |s|);
      var hi := Least(mid + n, |s|);
      Merge(cmp, s[..mid], s[mid..hi]) + MergePass(cmp, s[hi..], n)
  }

  /** The passes, until one is a single merge. */
  function MergeSort(cmp: Compare, s: seq<Handle>, n: nat): seq<Handle>
    requires n > 0
    decreases if |s| <= 2 * n then 0 else |s| - n
  {
    var t := MergePass(cmp, s, n);
    if |s| <= 2 * n then t else MergeSort(cmp, t, 2 * n)
  }

  // ---------------------------------------------------------------------
  // Stability
  // ---------------------------------------------------------------------

  /** The comparison orders any two elements, and in a line. */
  ghost predicate Orders(cmp: Compare) {
    && (forall a, b :: cmp(a, b) <= 0 || cmp(b, a) <= 0)
    && (forall a, b, c :: cmp(a, b) <= 0 && cmp(b, c) <= 0 ==> cmp(a, c) <= 0)
  }

  /** `a` is to come before `b`: it is smaller, or equal and came before. */
  ghost predicate Before(cmp: Compare, rank: map<Handle, nat>, a: Handle, b: Handle) {
    && a in rank && b in rank
    && cmp(a.key, b.key) <= 0
    && (cmp(b.key, a.key) <= 0 ==> rank[a] < rank[b])
  }

  ghost predicate Sorted(cmp: Compare, rank: map<Handle, nat>, s: seq<Handle>) {
    forall i, j :: 0 <= i < j < |s| ==> Before(cmp, rank, s[i], s[j])
  }

  /** The elements that came at the places from `lo` on, sorted. */
  ghost predicate Run(cmp: Compare, rank: map<Handle, nat>, s: seq<Handle>, lo: nat) {
    && Sorted(cmp, rank, s)
    && (forall e :: e in s ==> e in rank && lo <= rank[e] < lo + |s|)
    && (forall e :: e in rank && lo <= rank[e] < lo + |s| ==> e in s)
  }

  /** Runs of `n` elements each; the last may be shorter. */
  ghost predicate Runs(cmp: Compare, rank: map<Handle, nat>, s: seq<Handle>, lo: nat, n: nat)
    requires n > 0
    decreases |s|
  {
    s != [] ==>
      var mid := Least(n, |s|);
      Run(cmp, rank, s[..mid], lo) && Runs(cmp, rank, s[mid..], lo + mid, n)
  }

  lemma BeforeTransitive(cmp: Compare, rank: map<Handle, nat>, a: Handle, b: Handle, c: Handle)
    requires Orders(cmp) && Before(cmp, rank, a, b) && Before(cmp, rank, b, c)
    ensures Before(cmp, rank, a, c)
  {
    assert cmp(a.key, c.key) <= 0;
    if cmp(c.key, a.key) <= 0 {
      assert cmp(c.key, b.key) <= 0 && cmp(b.key, a.key) <= 0;
    }
  }

  lemma {:induction false} MergeElements(cmp: Compare, p: seq<Handle>, q: seq<Handle>)
    ensures forall e :: e in Merge(cmp, p, q) <==> e in p || e in q
    decreases |p| + |q|
  {
    if p != [] && q != [] {
      if cmp(p[0].key, q[0].key) <= 0 {
        MergeElements(cmp, p[1..], q);
      } else {
        MergeElements(cmp, p, q[1..]);
      }
    }
  }

  /** Merging keeps equal elements in order: those of the first run go first. */
  lemma {:induction false} MergeSorted(cmp: Compare, rank: map<Handle, nat>, p: seq<Handle>, q: seq<Handle>)
    requires Orders(cmp) && Sorted(cmp, rank, p) && Sorted(cmp, rank, q)
    requires forall a :: a in p || a in q ==> a in rank
    requires forall a, b :: a in p && b in q ==> rank[a] < rank[b]
    ensures Sorted(cmp, rank, Merge(cmp, p, q))
    decreases |p| + |q|
  {
    if p != [] && q != [] {
      if cmp(p[0].key, q[0].key) <= 0 {
        MergeSorted(cmp, rank, p[1..], q);
        MergeElements(cmp, p[1..], q);
        FirstBefore(cmp, rank, p, q, Merge(cmp, p[1..], q));
      } else {
        MergeSorted(cmp, rank, p, q[1..]);
        MergeElements(cmp, p, q[1..]);
        FirstBefore(cmp, rank, q, p, Merge(cmp, p, q[1..]));
      }
    }
  }

  /** The smaller of two first elements comes before all others. */
  lemma FirstBefore(cmp: Compare, rank: map<Handle, nat>, p: seq<Handle>, q: seq<Handle>, rest: seq<Handle>)
    requires Orders(cmp) && Sorted(cmp, rank, p) && Sorted(cmp, rank, q) && p != [] && q != []
    requires Before(cmp, rank, p[0], q[0]) && Sorted(cmp, rank, rest)
    requires forall e :: e in rest ==> e in p[1..] || e in q
    ensures Sorted(cmp, rank, [p[0]] + rest)
  {
    var s := [p[0]] + rest;
    forall e | e in rest ensures Before(cmp, rank, p[0], e) {
      if e in p[1..] {
        var i :| 0 <= i < |p[1..]| && p[1..][i] == e;
        assert p[i + 1] == e;
      } else {
        var i :| 0 <= i < |q| && q[i] == e;
        if i > 0 {
          BeforeTransitive(cmp, rank, p[0], q[0], e);
        }
      }
    }
    forall i, j | 0 <= i < j < |s| ensures Before(cmp, rank, s[i], s[j]) {
      assert s[j] == rest[j - 1];
      if i > 0 {
        assert s[i] == rest[i - 1];
      }
    }
  }

  lemma {:induction false} PassRuns(cmp: Compare, rank: map<Handle, nat>, s: seq<Handle>, lo: nat, n: nat)
    requires n > 0 && Orders(cmp) && Runs(cmp, rank, s, lo, n)
    ensures Runs(cmp, rank, MergePass(cmp, s, n), lo, 2 * n)
    decreases |s|
  {
    hide Run, Merge, MergePass, Orders;
    PassIs(cmp, s, n);
    if s != [] {
      var mid := Least(n, |s|);
      var hi := Least(mid + n, |s|);
      SecondRun(cmp, rank, s, lo, n);
      MergeRun(cmp, rank, s[..mid], s[mid..hi], lo);
      PassRuns(cmp, rank, s[hi..], lo + hi, n);
      var m, r := Merge(cmp, s[..mid], s[mid..hi]), MergePass(cmp, s, n);
      assert r[..hi] == m && r[hi..] == MergePass(cmp, s[hi..], n);
      assert Least(2 * n, |r|) == hi;
    }
  }

  lemma MergeRun(cmp: Compare, rank: map<Handle, nat>, p: seq<Handle>, q: seq<Handle>, lo: nat)
    requires Orders(cmp) && Run(cmp, rank, p, lo) && Run(cmp, rank, q, lo + |p|)
    ensures Run(cmp, rank, Merge(cmp, p, q), lo)
  {
    MergeElements(cmp, p, q);
    MergeSorted(cmp, rank, p, q);
  }

  lemma RunEmpty(cmp: Compare, rank: map<Handle, nat>, lo: nat)
    ensures Run(cmp, rank, [], lo)
  {
  }

  lemma SecondRun(cmp: Compare, rank: map<Handle, nat>, s: seq<Handle>, lo: nat, n: nat)
    requires n > 0 && s != [] && Runs(cmp, rank, s, lo, n)
    ensures var mid := Least(n, |s|);
            var hi := Least(mid + n, |s|);
            && Run(cmp, rank, s[..mid], lo) && Run(cmp, rank, s[mid..hi], lo + mid)
            && Runs(cmp, rank, s[hi..], lo + hi, n)
  {
    hide Run;
    RunEmpty(cmp, rank, lo + |s|);
    var mid := Least(n, |s|);
    var hi := Least(mid + n, |s|);
    var rest := s[mid..];
    if rest == [] {
      assert s[mid..hi] == [] && s[hi..] == [];
    } else {
      assert Least(n, |rest|) == hi - mid;
      assert rest[..hi - mid] == s[mid..hi] && rest[hi - mid..] == s[hi..];
    }
  }

  /** The places of distinct elements. */
  ghost function RankOf(s: seq<Handle>): (rank: map<Handle, nat>)
    requires forall i, j :: 0 <= i < j < |s| ==> s[i] != s[j]
    ensures forall i :: 0 <= i < |s| ==> s[i] in rank && rank[s[i]] == i
    ensures forall e :: e in rank ==> e in s && rank[e] < |s| && s[rank[e]] == e
  {
    if s == [] then map[] else RankOf(s[..|s| - 1])[s[|s| - 1] := |s| - 1]
  }

  lemma {:induction false} SingleRuns(cmp: Compare, rank: map<Handle, nat>, all: seq<Handle>, lo: nat)
    requires lo <= |all|
    requires forall i :: 0 <= i < |all| ==> all[i] in rank && rank[all[i]] == i
    requires forall e :: e in rank ==> rank[e] < |all| && all[rank[e]] == e
    ensures Runs(cmp, rank, all[lo..], lo, 1)
    decreases |all| - lo
  {
    if lo < |all| {
      SingleRuns(cmp, rank, all, lo + 1);
      assert all[lo..][1..] == all[lo + 1..] && all[lo..][..1] == [all[lo]];
    }
  }

  lemma {:induction false} SortRuns(cmp: Compare, rank: map<Handle, nat>, s: seq<Handle>, n: nat)
    requires n > 0 && Orders(cmp) && Runs(cmp, rank, s, 0, n)
    ensures Run(cmp, rank, MergeSort(cmp, s, n), 0) && |MergeSort(cmp, s, n)| == |s|
    decreases if |s| <= 2 * n then 0 else |s| - n
  {
    PassRuns(cmp, rank, s, 0, n);
    var t := MergePass(cmp, s, n);
    if |s| <= 2 * n {
      assert t[..|t|] == t;
    } else {
      SortRuns(cmp, rank, t, 2 * n);
    }
  }

  /** The sort yields a sorted permutation of the list, in which equal elements
      are in the order in which they were. */
  lemma SortIsStable(cmp: Compare, s: seq<Handle>)
    requires Orders(cmp) && forall i, j :: 0 <= i < j < |s| ==> s[i] != s[j]
    ensures var t := MergeSort(cmp, s, 1);
            && |t| == |s| && (forall e :: e in t <==> e in s)
            && (forall i, j :: 0 <= i < j < |t| ==> t[i] != t[j])
            && Sorted(cmp, RankOf(s), t)
  {
    hide MergeSort, Orders, RankOf, Run, Runs;
    var rank := RankOf(s);
    assert s[0..] == s;
    SingleRuns(cmp, rank, s, 0);
    SortRuns(cmp, rank, s, 1);
    RunPermutes(cmp, rank, s, MergeSort(cmp, s, 1));
  }

  lemma RunPermutes(cmp: Compare, rank: map<Handle, nat>, s: seq<Handle>, t: seq<Handle>)
    requires Run(cmp, rank, t, 0) && |t| == |s|
    requires forall i :: 0 <= i < |s| ==> s[i] in rank && rank[s[i]] == i
    requires forall e :: e in rank ==> e in s && rank[e] < |s| && s[rank[e]] == e
    ensures (forall e :: e in t <==> e in s) && Sorted(cmp, rank, t)
    ensures forall i, j :: 0 <= i < j < |t| ==> t[i] != t[j]
  {
    forall i, j | 0 <= i < j < |t| ensures t[i] != t[j] {
      assert Before(cmp, rank, t[i], t[j]);
    }
  }

  // ---------------------------------------------------------------------
  // Permutation, whatever the comparison says
  // ---------------------------------------------------------------------

  lemma FirstAndRest(s: seq<Handle>)
    requires s != []
    ensures multiset(s) == multiset{s[0]} + multiset(s[1..])
  {
    assert s == [s[0]] + s[1..];
  }

  lemma {:induction false} MergePermutes(cmp: Compare, p: seq<Handle>, q: seq<Handle>)
    ensures multiset(Merge(cmp, p, q)) == multiset(p) + multiset(q)
    decreases |p| + |q|
  {
    if p != [] && q != [] {
      if cmp(p[0].key, q[0].key) <= 0 {
        MergePermutes(cmp, p[1..], q);
        FirstAndRest(p);
        FirstAndRest([p[0]] + Merge(cmp, p[1..], q));
      } else {
        MergePermutes(cmp, p, q[1..]);
        FirstAndRest(q);
        FirstAndRest([q[0]] + Merge(cmp, p, q[1..]));
      }
    }
  }

  lemma {:induction false} PassPermutes(cmp: Compare, s: seq<Handle>, n: nat)
    requires n > 0
    ensures multiset(MergePass(cmp, s, n)) == multiset(s)
    decreases |s|
  {
    hide Merge, MergePass;
    PassIs(cmp, s, n);
    if s != [] {
      var mid := Least(n, |s|);
      var hi := Least(mid + n, |s|);
      MergePermutes(cmp, s[..mid], s[mid..hi]);
      PassPermutes(cmp, s[hi..], n);
      ThreeParts(s, mid, hi);
    }
  }

  lemma PassIs(cmp: Compare, s: seq<Handle>, n: nat)
    requires n > 0
    ensures s == [] ==> MergePass(cmp, s, n) == []
    ensures s != [] ==>
              var mid := Least(n, |s|);
              var hi := Least(mid + n, |s|);
              MergePass(cmp, s, n) == Merge(cmp, s[..mid], s[mid..hi]) + MergePass(cmp, s[hi..], n)
  {
  }

  lemma ThreeParts(s: seq<Handle>, mid: nat, hi: nat)
    requires mid <= hi <= |s|
    ensures multiset(s) == multiset(s[..mid]) + multiset(s[mid..hi]) + multiset(s[hi..])
  {
    assert s == s[..mid] + s[mid..hi] + s[hi..];
  }

  lemma {:induction false} SortPermutes(cmp: Compare, s: seq<Handle>, n: nat)
    requires n > 0
    ensures multiset(MergeSort(cmp, s, n)) == multiset(s)
    decreases if |s| <= 2 * n then 0 else |s| - n
  {
    PassPermutes(cmp, s, n);
    if |s| > 2 * n {
      SortPermutes(cmp, MergePass(cmp, s, n), 2 * n);
    }
  }

  // ---------------------------------------------------------------------
  // In place
  // ---------------------------------------------------------------------

  ghost predicate NextAt(s: seq<Handle>, k: nat)
    requires k < |s|
    reads {s[k]}`next
  {
    s[k].next == HashTables.At(s, k + 1)
  }

  /** The elements from `a` up to `b` have the links of `s`. */
  ghost predicate Forward(s: seq<Handle>, a: nat, b: nat)
    requires b <= |s|
    reads s`next
  {
    ForwardFacts(s, a, b) == true
  }

  ghost predicate ForwardFacts(s: seq<Handle>, a: nat, b: nat)
    requires b <= |s|
    reads s`next
  {
    forall k :: a <= k < b ==> NextAt(s, k)
  }

  ghost predicate BuiltAt(s: seq<Handle>, k: nat)
    requires k < |s|
    reads {s[k]}`prev, {s[k]}`next
  {
    s[k].prev == HashTables.At(s, k - 1) && (k + 1 < |s| ==> s[k].next == HashTables.At(s, k + 1))
  }

  /** The new list so far, without the end mark. */
  ghost predicate Built(out: seq<Handle>, list: Handle?, tail: Handle?)
    reads out`prev, out`next
  {
    BuiltFacts(out, list, tail) == true
  }

  ghost predicate BuiltFacts(out: seq<Handle>, list: Handle?, tail: Handle?)
    reads out`prev, out`next
  {
    && (forall i, j :: 0 <= i < j < |out| ==> out[i] != out[j])
    && list == HashTables.At(out, 0) && tail == HashTables.At(out, |out| - 1)
    && (forall k :: 0 <= k < |out| ==> BuiltAt(out, k))
  }

  /** The elements not yet taken from the runs are none of the new list. */
  ghost predicate Untaken(ins: seq<Handle>, i: nat, mid: nat, j: nat, out: seq<Handle>) {
    UntakenFacts(ins, i, mid, j, out) == true
  }

  ghost predicate UntakenFacts(ins: seq<Handle>, i: nat, mid: nat, j: nat, out: seq<Handle>) {
    forall k, l :: 0 <= k < |out| && 0 <= l < |ins| && (i <= l < mid || j <= l) ==> out[k] != ins[l]
  }

  /** The end of the loop body: `e`, just taken, is appended to the new list.
      What is left of the runs keeps its links. */
  method Emit(e: Handle, list: Handle?, tail: Handle?, ghost out: seq<Handle>,
              ghost ins: seq<Handle>, ghost i: nat, ghost mid: nat, ghost j: nat)
    returns (list': Handle?)
    requires Built(out, list, tail) && (forall k :: 0 <= k < |out| ==> out[k] != e)
    requires i <= mid <= j <= |ins| && Untaken(ins, i, mid, j, out + [e])
    requires Forward(ins, i, mid) && Forward(ins, j, |ins|)
    modifies out`next, e`prev
    ensures Built(out + [e], list', e)
    ensures Forward(ins, i, mid) && Forward(ins, j, |ins|)
  {
    forall k, l | 0 <= k < |out| && 0 <= l < |ins| && (i <= l < mid || j <= l) ensures out[k] != ins[l] {
      assert (out + [e])[k] == out[k];
    }
    list' := list;
    if tail != null {
      tail.next := e;
    } else {
      list' := e;
    }
    e.prev := tail;
    ghost var s := out + [e];
    forall k | 0 <= k < |s| ensures BuiltAt(s, k) {
      assert k < |out| ==> old(BuiltAt(out, k));
    }
    forall k | i <= k < mid || j <= k < |ins| ensures NextAt(ins, k) {
      assert old(NextAt(ins, k));
    }
  }

  /** What is merged of the runs from `i` and from `j` on, and what is left. */
  ghost predicate Merging(cmp: Compare, ins: seq<Handle>, i: nat, mid: nat, j: nat, hi: nat,
                          out: seq<Handle>, all: seq<Handle>)
  {
    MergingFacts(cmp, ins, i, mid, j, hi, out, all) == true
  }

  ghost predicate MergingFacts(cmp: Compare, ins: seq<Handle>, i: nat, mid: nat, j: nat, hi: nat,
                          out: seq<Handle>, all: seq<Handle>)
  {
    && i <= mid <= j <= hi <= |ins|
    && Untaken(ins, i, mid, j, out)
    && out + Merge(cmp, ins[i..mid], ins[j..hi]) == all
  }

  lemma TakeFromFirst(cmp: Compare, ins: seq<Handle>, i: nat, mid: nat, j: nat, hi: nat,
                      out: seq<Handle>, all: seq<Handle>)
    requires Merging(cmp, ins, i, mid, j, hi, out, all) && i < mid
    requires j == hi || cmp(ins[i].key, ins[j].key) <= 0
    requires forall k, l :: 0 <= k < l < |ins| ==> ins[k] != ins[l]
    ensures Merging(cmp, ins, i + 1, mid, j, hi, out + [ins[i]], all)
    ensures Untaken(ins, i + 1, mid, j, out + [ins[i]])
    ensures forall k :: 0 <= k < |out| ==> out[k] != ins[i]
  {
    var p, q := ins[i..mid], ins[j..hi];
    assert p[1..] == ins[i + 1..mid];
    assert Merge(cmp, p, q) == [ins[i]] + Merge(cmp, p[1..], q) by {
      if q == [] {
        assert Merge(cmp, p[1..], q) == p[1..];
      }
    }
    assert out + ([ins[i]] + Merge(cmp, p[1..], q)) == (out + [ins[i]]) + Merge(cmp, p[1..], q);
  }

  lemma TakeFromSecond(cmp: Compare, ins: seq<Handle>, i: nat, mid: nat, j: nat, hi: nat,
                       out: seq<Handle>, all: seq<Handle>)
    requires Merging(cmp, ins, i, mid, j, hi, out, all) && j < hi
    requires i == mid || cmp(ins[i].key, ins[j].key) > 0
    requires forall k, l :: 0 <= k < l < |ins| ==> ins[k] != ins[l]
    ensures Merging(cmp, ins, i, mid, j + 1, hi, out + [ins[j]], all)
    ensures Untaken(ins, i, mid, j + 1, out + [ins[j]])
    ensures forall k :: 0 <= k < |out| ==> out[k] != ins[j]
  {
    var p, q := ins[i..mid], ins[j..hi];
    assert q[1..] == ins[j + 1..hi];
    assert Merge(cmp, p, q) == [ins[j]] + Merge(cmp, p, q[1..]) by {
      if p == [] {
        assert Merge(cmp, p, q[1..]) == q[1..];
      }
    }
    assert out + ([ins[j]] + Merge(cmp, p, q[1..])) == (out + [ins[j]]) + Merge(cmp, p, q[1..]);
  }

  ghost predicate Distinct(s: seq<Handle>) {
    DistinctFacts(s) == true
  }

  ghost predicate DistinctFacts(s: seq<Handle>) {
    forall i, j :: 0 <= i < j < |s| ==> s[i] != s[j]
  }

  /** Between two merges: the runs before `at` are in the new list, those from
      there on have their links. */
  ghost predicate Between(ins: seq<Handle>, at: nat, out: seq<Handle>, list: Handle?, tail: Handle?)
    reads ins`next, ins`prev, out`next, out`prev
  {
    BetweenFacts(ins, at, out, list, tail) == true
  }

  ghost predicate BetweenFacts(ins: seq<Handle>, at: nat, out: seq<Handle>, list: Handle?, tail: Handle?)
    reads ins`next, ins`prev, out`next, out`prev
  {
    && at <= |ins| && Distinct(ins)
    && Forward(ins, at, |ins|)
    && Built(out, list, tail) && Untaken(ins, at, at, at, out)
    && forall k :: 0 <= k < |out| ==> out[k] in ins
  }

  /** Two runs are being merged: all but the runs' front pointers. */
  ghost predicate Halfway(cmp: Compare, ins: seq<Handle>, i: nat, mid: nat, j: nat, hi: nat,
                          out: seq<Handle>, all: seq<Handle>, list: Handle?, tail: Handle?)
    reads ins`next, ins`prev, out`next, out`prev
  {
    HalfwayFacts(cmp, ins, i, mid, j, hi, out, all, list, tail) == true
  }

  ghost predicate HalfwayFacts(cmp: Compare, ins: seq<Handle>, i: nat, mid: nat, j: nat, hi: nat,
                          out: seq<Handle>, all: seq<Handle>, list: Handle?, tail: Handle?)
    reads ins`next, ins`prev, out`next, out`prev
  {
    && Merging(cmp, ins, i, mid, j, hi, out, all)
    && i <= mid <= j <= hi <= |ins| && Distinct(ins)
    && Forward(ins, i, mid) && Forward(ins, j, |ins|)
    && Built(out, list, tail)
    && forall k :: 0 <= k < |out| ==> out[k] in ins
  }

  /** The next element is one of the first run. */
  method TakeP(cmp: Compare, p: Handle, list: Handle?, tail: Handle?, ghost ins: seq<Handle>, ghost i: nat,
               ghost mid: nat, ghost j: nat, ghost hi: nat, ghost out: seq<Handle>, ghost all: seq<Handle>)
    returns (p': Handle?, list': Handle?)
    requires Halfway(cmp, ins, i, mid, j, hi, out, all, list, tail)
    requires i < mid <= |ins| && p == ins[i] && (j == hi || (j < |ins| && cmp(ins[i].key, ins[j].key) <= 0))
    modifies ins`next, ins`prev
    ensures Halfway(cmp, ins, i + 1, mid, j, hi, out + [p], all, list', p)
    ensures p' == HashTables.At(ins, i + 1)
  {
    hide Merging, Forward, Built, Untaken;
    TakeFromFirst(cmp, ins, i, mid, j, hi, out, all);
    ForwardFirst(ins, i, mid);
    p' := p.next;
    list' := Emit(p, list, tail, out, ins, i + 1, mid, j);
  }

  /** The next element is one of the second run. */
  method TakeQ(cmp: Compare, q: Handle, list: Handle?, tail: Handle?, ghost ins: seq<Handle>, ghost i: nat,
               ghost mid: nat, ghost j: nat, ghost hi: nat, ghost out: seq<Handle>, ghost all: seq<Handle>)
    returns (q': Handle?, list': Handle?)
    requires Halfway(cmp, ins, i, mid, j, hi, out, all, list, tail)
    requires j < hi <= |ins| && q == ins[j] && (i == mid || (i < |ins| && cmp(ins[i].key, ins[j].key) > 0))
    modifies ins`next, ins`prev
    ensures Halfway(cmp, ins, i, mid, j + 1, hi, out + [q], all, list', q)
    ensures q' == HashTables.At(ins, j + 1)
  {
    hide Merging, Forward, Built, Untaken;
    TakeFromSecond(cmp, ins, i, mid, j, hi, out, all);
    ForwardFirst(ins, j, |ins|);
    q' := q.next;
    list' := Emit(q, list, tail, out, ins, i, mid, j + 1);
  }

  /** The inner loop: two runs, at `lo` and at `mid`, are merged. */
  method MergeRuns(cmp: Compare, p: Handle, q: Handle?, psize: nat, n: nat, list: Handle?, tail: Handle?,
                   ghost ins: seq<Handle>, ghost lo: nat, ghost out: seq<Handle>)
    returns (q': Handle?, list': Handle?, tail': Handle?, ghost out': seq<Handle>)
    requires Between(ins, lo, out, list, tail)
    requires lo < |ins| && n > 0 && psize == Least(n, |ins| - lo)
    requires p == ins[lo] && q == HashTables.At(ins, lo + psize)
    modifies ins`next, ins`prev
    ensures var mid := lo + psize;
            var hi := Least(mid + n, |ins|);
            && q' == HashTables.At(ins, hi) && Between(ins, hi, out', list', tail')
            && out' == out + Merge(cmp, ins[lo..mid], ins[mid..hi])
  {
    hide Merge, Between, Halfway;
    ghost var mid := lo + psize;
    ghost var hi := Least(mid + n, |ins|);
    ghost var all := out + Merge(cmp, ins[lo..mid], ins[mid..hi]);
    ghost var i, j := lo, mid;
    var p': Handle? := p;
    var ps, qs := psize, n;
    q', list', tail', out' := q, list, tail, out;
    MergingStarts(cmp, ins, lo, mid, hi, out, list, tail);
    while ps != 0 || (qs != 0 && q' != null)
      invariant i <= mid <= j <= hi && ps == mid - i && qs == n - (j - mid)
      invariant i < mid ==> p' == ins[i]
      invariant q' == HashTables.At(ins, j)
      invariant Halfway(cmp, ins, i, mid, j, hi, out', all, list', tail')
      decreases ps + qs
    {
      if ps == 0 || !(qs == 0 || q' == null || cmp(p'.key, q'.key) <= 0) {
        var e: Handle := q';
        q', list' := TakeQ(cmp, e, list', tail', ins, i, mid, j, hi, out', all);
        qs := qs - 1;
        tail', out', j := e, out' + [e], j + 1;
      } else {
        var e: Handle := p';
        p', list' := TakeP(cmp, e, list', tail', ins, i, mid, j, hi, out', all);
        ps := ps - 1;
        tail', out', i := e, out' + [e], i + 1;
      }
    }
    MergingEnds(cmp, ins, mid, hi, out', all, list', tail');
  }

  lemma MergingStarts(cmp: Compare, ins: seq<Handle>, lo: nat, mid: nat, hi: nat, out: seq<Handle>,
                      list: Handle?, tail: Handle?)
    requires lo <= mid <= hi <= |ins| && Between(ins, lo, out, list, tail)
    ensures Halfway(cmp, ins, lo, mid, mid, hi, out, out + Merge(cmp, ins[lo..mid], ins[mid..hi]), list, tail)
  {
    ForwardParts(ins, lo, mid);
  }

  lemma MergingEnds(cmp: Compare, ins: seq<Handle>, mid: nat, hi: nat, out: seq<Handle>, all: seq<Handle>,
                    list: Handle?, tail: Handle?)
    requires Halfway(cmp, ins, mid, mid, hi, hi, out, all, list, tail)
    ensures out == all && Between(ins, hi, out, list, tail)
  {
    assert Merge(cmp, ins[mid..mid], ins[hi..hi]) == [];
  }

  lemma ForwardParts(s: seq<Handle>, a: nat, b: nat)
    requires a <= b <= |s| && Forward(s, a, |s|)
    ensures Forward(s, a, b) && Forward(s, b, |s|)
  {
  }

  lemma ForwardFirst(s: seq<Handle>, a: nat, b: nat)
    requires a < b <= |s| && Forward(s, a, b)
    ensures s[a].next == HashTables.At(s, a + 1) && Forward(s, a + 1, b)
  {
    assert NextAt(s, a);
  }

  /** The elements of a run are counted off. */
  method CountOff(p: Handle, n: nat, ghost ins: seq<Handle>, ghost lo: nat) returns (q: Handle?, psize: nat)
    requires lo < |ins| && n > 0 && p == ins[lo] && Forward(ins, lo, |ins|)
    ensures psize == Least(n, |ins| - lo) && q == HashTables.At(ins, lo + psize)
  {
    hide Forward;
    q, psize := p, 0;
    for i := 0 to n
      invariant psize == i && lo + psize <= |ins| && q == HashTables.At(ins, lo + psize)
      invariant i < n ==> q != null
    {
      NextIs(ins, lo, lo + psize);
      psize := psize + 1;
      q := q.next;
      if q == null {
        break;
      }
    }
  }

  lemma NextIs(s: seq<Handle>, a: nat, k: nat)
    requires Forward(s, a, |s|) && a <= k < |s|
    ensures s[k].next == HashTables.At(s, k + 1)
  {
    assert NextAt(s, k);
  }

  /** A list from `list` to `tail`. */
  ghost predicate Listed(s: seq<Handle>, list: Handle?, tail: Handle?)
    reads s`next, s`prev
  {
    ListedFacts(s, list, tail) == true
  }

  ghost predicate ListedFacts(s: seq<Handle>, list: Handle?, tail: Handle?)
    reads s`next, s`prev
  {
    && Distinct(s)
    && list == HashTables.At(s, 0) && tail == HashTables.At(s, |s| - 1)
    && (forall k :: 0 <= k < |s| ==> InOrder(s, k))
  }

  lemma ListedBetween(s: seq<Handle>, list: Handle?, tail: Handle?)
    requires Listed(s, list, tail)
    ensures Between(s, 0, [], null, null)
  {
    forall k | 0 <= k < |s| ensures NextAt(s, k) {
      assert InOrder(s, k);
    }
  }

  /** Where a pass stands: the runs before `at` are merged. */
  ghost predicate Passing(cmp: Compare, ins: seq<Handle>, n: nat, at: nat, out: seq<Handle>) {
    PassingFacts(cmp, ins, n, at, out) == true
  }

  ghost predicate PassingFacts(cmp: Compare, ins: seq<Handle>, n: nat, at: nat, out: seq<Handle>) {
    n > 0 && at <= |ins| && out + MergePass(cmp, ins[at..], n) == MergePass(cmp, ins, n)
  }

  lemma PassingOn(cmp: Compare, ins: seq<Handle>, n: nat, at: nat, out: seq<Handle>)
    requires Passing(cmp, ins, n, at, out) && at < |ins|
    ensures var mid := at + Least(n, |ins| - at);
            var hi := Least(mid + n, |ins|);
            Passing(cmp, ins, n, hi, out + Merge(cmp, ins[at..mid], ins[mid..hi]))
  {
    hide Merge, MergePass;
    var s := ins[at..];
    var mid := at + Least(n, |ins| - at);
    var hi := Least(mid + n, |ins|);
    PassIs(cmp, s, n);
    assert s[..mid - at] == ins[at..mid] && s[mid - at..hi - at] == ins[mid..hi] && s[hi - at..] == ins[hi..];
    var m, r := Merge(cmp, ins[at..mid], ins[mid..hi]), MergePass(cmp, ins[hi..], n);
    assert out + (m + r) == (out + m) + r;
  }

  lemma PassingEnds(cmp: Compare, ins: seq<Handle>, n: nat)
    requires n > 0
    ensures Passing(cmp, ins, n, 0, [])
    ensures forall out :: Passing(cmp, ins, n, |ins|, out) ==> out == MergePass(cmp, ins, n)
  {
    assert ins[0..] == ins && ins[|ins|..] == [];
    assert [] + MergePass(cmp, ins, n) == MergePass(cmp, ins, n);
    forall out | Passing(cmp, ins, n, |ins|, out) ensures out == MergePass(cmp, ins, n) {
      assert out + [] == out;
    }
  }

  lemma BetweenForward(ins: seq<Handle>, at: nat, out: seq<Handle>, list: Handle?, tail: Handle?)
    requires Between(ins, at, out, list, tail)
    ensures Forward(ins, at, |ins|) && Built(out, list, tail)
    ensures forall k :: 0 <= k < |out| ==> out[k] in ins
  {
  }

  /** The end mark of the new list. */
  method EndList(list: Handle?, tail: Handle?, ghost out: seq<Handle>, ghost ins: seq<Handle>)
    requires Built(out, list, tail) && forall k :: 0 <= k < |out| ==> out[k] in ins
    modifies ins`next
    ensures Listed(out, list, tail)
  {
    if tail != null {
      tail.next := null;
    }
    forall k | 0 <= k < |out| ensures InOrder(out, k) {
      assert old(BuiltAt(out, k));
    }
  }

  /** A pass over the list; `nmerges` counts its merges. */
  method PassOver(cmp: Compare, list: Handle?, n: nat, ghost ins: seq<Handle>)
    returns (list': Handle?, tail': Handle?, nmerges: nat, ghost out: seq<Handle>)
    requires n > 0 && ins != [] && list == ins[0] && Between(ins, 0, [], null, null)
    modifies ins`next, ins`prev
    ensures out == MergePass(cmp, ins, n) && Listed(out, list', tail')
    ensures nmerges <= 1 <==> |ins| <= 2 * n
  {
    hide Between, Passing, Listed, Merge, MergePass;
    var p := list;
    ghost var at := 0;
    list', tail', nmerges, out := null, null, 0, [];
    PassingEnds(cmp, ins, n);
    while p != null
      invariant p == HashTables.At(ins, at) && at <= |ins|
      invariant Between(ins, at, out, list', tail') && Passing(cmp, ins, n, at, out)
      invariant if nmerges == 0 then at == 0 else if nmerges == 1 then at == Least(2 * n, |ins|) else |ins| > 2 * n
      decreases |ins| - at
    {
      BetweenForward(ins, at, out, list', tail');
      nmerges := nmerges + 1;
      var q, psize := CountOff(p, n, ins, at);
      PassingOn(cmp, ins, n, at, out);
      p, list', tail', out := MergeRuns(cmp, p, q, psize, n, list', tail', ins, at, out);
      at := Least(at + psize + n, |ins|);
    }
    BetweenForward(ins, at, out, list', tail');
    EndList(list', tail', out, ins);
  }

  lemma ListedPermuted(a: seq<Handle>, b: seq<Handle>)
    requires multiset(a) == multiset(b)
    ensures |a| == |b|
    ensures forall i :: 0 <= i < |a| ==> a[i] in b
    ensures forall i :: 0 <= i < |b| ==> b[i] in a
  {
    assert |multiset(a)| == |a| && |multiset(b)| == |b|;
    assert forall e :: e in a <==> e in multiset(a);
    assert forall e :: e in b <==> e in multiset(b);
  }

  lemma {:induction false} SortOn(cmp: Compare, s: seq<Handle>, n: nat)
    requires n > 0
    ensures MergeSort(cmp, s, n)
            == if |s| <= 2 * n then MergePass(cmp, s, n) else MergeSort(cmp, MergePass(cmp, s, n), 2 * n)
  {
  }

  /** The passes of HASH_SRT over the list. */
  method SortList(cmp: Compare, head: Handle, ghost order: seq<Handle>, tail: Handle)
    returns (list': Handle?, tail': Handle?, ghost out: seq<Handle>)
    requires order != [] && Listed(order, head, tail)
    modifies order`next, order`prev
    ensures out == MergeSort(cmp, order, 1) && Listed(out, list', tail')
  {
    hide Listed, MergePass, MergeSort, Between;
    var n, looping := 1, true;
    list', tail', out := head, tail, order;
    while looping
      invariant n > 0 && Listed(out, list', tail') && |out| == |order|
      invariant forall i :: 0 <= i < |out| ==> out[i] in order
      invariant MergeSort(cmp, order, 1) == if looping then MergeSort(cmp, out, n) else out
      decreases looping, if |out| <= 2 * n then 0 else |out| - n
    {
      ghost var ins := out;
      SortOn(cmp, ins, n);
      ListedBetween(ins, list', tail');
      ListedHead(ins, list', tail');
      PassPermutes(cmp, ins, n);
      ListedPermuted(ins, MergePass(cmp, ins, n));
      var nmerges;
      list', tail', nmerges, out := PassOver(cmp, list', n, ins);
      if nmerges <= 1 {
        looping := false;
      }
      n := 2 * n;
    }
  }

  lemma ListedHead(s: seq<Handle>, list: Handle?, tail: Handle?)
    requires Listed(s, list, tail)
    ensures list == HashTables.At(s, 0)
  {
  }

  /** HASH_SRT */
  method Sort(t: HashTable, cmp: Compare)
    requires t.Valid()
    modifies t`head, t`tail, t`order, t.order`next, t.order`prev
    ensures t.Valid()
    ensures t.order == MergeSort(cmp, old(t.order), 1)
  {
    hide HashTable.BucketsOk, Listed, MergeSort;
    ghost var order := t.order;
    if t.head == null {
      assert order == [];
      SortOn(cmp, order, 1);
      return;
    }
    SortPermutes(cmp, order, 1);
    ListedPermuted(order, MergeSort(cmp, order, 1));
    OrderListed(t);
    var list, tail;
    ghost var out;
    list, tail, out := SortList(cmp, t.head, order, t.tail);
    t.head, t.tail, t.order := list, tail, out;
    BucketsSame(t, order, out);
    OrderAgain(t, order);
  }

  lemma OrderListed(t: HashTable)
    requires t.OrderOk() && t.order != []
    ensures Listed(t.order, t.head, t.tail)
  {
  }

  lemma OrderAgain(t: HashTable, was: seq<Handle>)
    requires Listed(t.order, t.head, t.tail)
    requires DistinctKeys(was) && forall i :: 0 <= i < |was| ==> was[i].hashv == t.hash(was[i].key)
    requires forall i :: 0 <= i < |t.order| ==> t.order[i] in was
    ensures t.OrderOk()
  {
    forall i, j | 0 <= i < j < |t.order| ensures t.order[i].key != t.order[j].key {
      var k :| 0 <= k < |was| && was[k] == t.order[i];
      var l :| 0 <= l < |was| && was[l] == t.order[j];
    }
  }

  lemma BucketsSame(t: HashTable, a: seq<Handle>, b: seq<Handle>)
    requires t.BucketsOk(a)
    requires forall i :: 0 <= i < |a| ==> a[i] in b
    requires forall i :: 0 <= i < |b| ==> b[i] in a
    ensures t.BucketsOk(b)
  {
    SameElements(t.hash, t.numBuckets, a, b, t.chains);
  }
}
