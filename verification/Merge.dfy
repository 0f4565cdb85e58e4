/** Merging listed blocks into byte-range reads: nearby blocks of a chunk share a read. */
module Merge {

  /** Blocks first..last of a chunk, read together for the listed blocks from item start on. */
  datatype Run = Run(chunk: nat, first: nat, last: nat, start: nat)

  /** Item i is in order after item i - 1. */
  predicate Follows(cs: seq<nat>, bs: seq<nat>, i: nat)
    requires 0 < i < |cs| == |bs|
  {
    cs[i - 1] < cs[i] || (cs[i - 1] == cs[i] && bs[i - 1] < bs[i])
  }

  ghost predicate Ascending(cs: seq<nat>, bs: seq<nat>) {
    |cs| == |bs| && forall i :: 0 < i < |cs| ==> Follows(cs, bs, i)
  }

  /** No read may join item i to the one before it. */
  predicate Break(cs: seq<nat>, bs: seq<nat>, gap: nat, i: nat)
    requires i < |cs| == |bs|
  {
    i == 0 || cs[i] != cs[i - 1] || bs[i] > bs[i - 1] + gap + 1
  }

  /** The run that is still growing after the first n items. */
  function Open(cs: seq<nat>, bs: seq<nat>, gap: nat, n: nat): (r: Run)
    requires 0 < n <= |cs| == |bs|
    ensures r.chunk == cs[n - 1] && r.last == bs[n - 1] && r.start < n
    decreases n
  {
    if Break(cs, bs, gap, n - 1) then Run(cs[n - 1], bs[n - 1], bs[n - 1], n - 1)
    else Open(cs, bs, gap, n - 1).(last := bs[n - 1])
  }

  /** The runs before it. */
  function Closed(cs: seq<nat>, bs: seq<nat>, gap: nat, n: nat): (rs: seq<Run>)
    requires n <= |cs| == |bs|
    ensures n > 0 ==> |rs| < n
    decreases n
  {
    if n <= 1 then []
    else if Break(cs, bs, gap, n - 1) then Closed(cs, bs, gap, n - 1) + [Open(cs, bs, gap, n - 1)]
    else Closed(cs, bs, gap, n - 1)
  }

  /** The runs of the first n items. */
  function Runs(cs: seq<nat>, bs: seq<nat>, gap: nat, n: nat): seq<Run>
    requires n <= |cs| == |bs|
  {
    if n == 0 then [] else Closed(cs, bs, gap, n) + [Open(cs, bs, gap, n)]
  }

  // ---- the loop ----

  datatype Outcome = Merged(count: nat) | BadOrder

  ghost predicate Holds(chunk: array<nat>, first: array<nat>, last: array<nat>, start: array<nat>, rs: seq<Run>)
    reads chunk, first, last, start
  {
    && |rs| <= chunk.Length && |rs| <= first.Length && |rs| <= last.Length && |rs| <= start.Length
    && forall k :: 0 <= k < |rs| ==> rs[k] == Run(chunk[k], first[k], last[k], start[k])
  }

  /** szfp_merge_ranges fails exactly on items out of order, and otherwise leaves the
    * runs in the output arrays. */
  method MergeRanges(cs: seq<nat>, bs: seq<nat>, gap: nat, chunk: array<nat>, first: array<nat>, last: array<nat>, start: array<nat>)
    returns (r: Outcome)
    requires |cs| == |bs| && |cs| <= chunk.Length && |cs| <= first.Length && |cs| <= last.Length && |cs| <= start.Length
    requires chunk != first && chunk != last && chunk != start && first != last && first != start && last != start
    modifies chunk, first, last, start
    ensures r.Merged? <==> Ascending(cs, bs)
    ensures r.Merged? ==> r.count == |Runs(cs, bs, gap, |cs|)| && Holds(chunk, first, last, start, Runs(cs, bs, gap, |cs|))
  {
    var n := |cs|;
    if n == 0 {
      return Merged(0);
    }
    chunk[0], first[0], last[0], start[0] := cs[0], bs[0], bs[0], 0;
    var m: nat := 0;
    for i := 1 to n
      invariant forall j :: 0 < j < i ==> Follows(cs, bs, j)
      invariant m == |Closed(cs, bs, gap, i)| && Holds(chunk, first, last, start, Closed(cs, bs, gap, i))
      invariant m < i && Open(cs, bs, gap, i) == Run(chunk[m], first[m], last[m], start[m])
    {
      if cs[i] < cs[i - 1] || (cs[i] == cs[i - 1] && bs[i] <= bs[i - 1]) {
        assert !Follows(cs, bs, i);
        return BadOrder;
      }
      if cs[i] == chunk[m] && bs[i] <= last[m] + gap + 1 {
        last[m] := bs[i];
      } else {
        HoldsMore(chunk, first, last, start, Closed(cs, bs, gap, i), Open(cs, bs, gap, i));
        m := m + 1;
        PutRun(chunk, first, last, start, m, cs[i], bs[i], i, Closed(cs, bs, gap, i + 1));
      }
    }
    HoldsMore(chunk, first, last, start, Closed(cs, bs, gap, n), Open(cs, bs, gap, n));
    return Merged(m + 1);
  }

  lemma {:induction false} HoldsMore(chunk: array<nat>, first: array<nat>, last: array<nat>, start: array<nat>, rs: seq<Run>, r: Run)
    requires Holds(chunk, first, last, start, rs)
    requires |rs| < chunk.Length && |rs| < first.Length && |rs| < last.Length && |rs| < start.Length
    requires r == Run(chunk[|rs|], first[|rs|], last[|rs|], start[|rs|])
    ensures Holds(chunk, first, last, start, rs + [r])
  {
  }

  method PutRun(chunk: array<nat>, first: array<nat>, last: array<nat>, start: array<nat>, m: nat, c: nat, b: nat, i: nat, ghost rs: seq<Run>)
    requires Holds(chunk, first, last, start, rs) && m == |rs|
    requires m < chunk.Length && m < first.Length && m < last.Length && m < start.Length
    requires chunk != first && chunk != last && chunk != start && first != last && first != start && last != start
    modifies chunk, first, last, start
    ensures Holds(chunk, first, last, start, rs) && Run(chunk[m], first[m], last[m], start[m]) == Run(c, b, b, i)
  {
    chunk[m] := c;
    first[m] := b;
    last[m] := b;
    start[m] := i;
  }

  // ---- the runs partition the items ----

  /** Where run k's items end. */
  function End(rs: seq<Run>, n: nat, k: nat): nat {
    if k + 1 < |rs| then rs[k + 1].start else n
  }

  /** Run k is exactly its items: it starts at a break and has none inside. */
  ghost predicate RunFits(cs: seq<nat>, bs: seq<nat>, gap: nat, n: nat, r: Run, end: nat)
    requires n <= |cs| == |bs|
  {
    && r.start < end <= n && Break(cs, bs, gap, r.start)
    && r.chunk == cs[r.start] && r.first == bs[r.start] && r.last == bs[end - 1]
    && forall i :: r.start < i < end ==> !Break(cs, bs, gap, i)
  }

  ghost predicate AllFit(cs: seq<nat>, bs: seq<nat>, gap: nat, n: nat, rs: seq<Run>)
    requires n <= |cs| == |bs|
  {
    forall k :: 0 <= k < |rs| ==> RunFits(cs, bs, gap, n, rs[k], End(rs, n, k))
  }

  /** The items fall into consecutive runs, broken where they must be and nowhere else. */
  lemma {:induction false} RunsPartition(cs: seq<nat>, bs: seq<nat>, gap: nat, n: nat)
    requires n <= |cs| == |bs|
    ensures AllFit(cs, bs, gap, n, Runs(cs, bs, gap, n))
  {
    if n == 1 {
      FitFirst(cs, bs, gap, Runs(cs, bs, gap, n));
    } else if n > 1 {
      RunsPartition(cs, bs, gap, n - 1);
      FitNext(cs, bs, gap, n, Closed(cs, bs, gap, n - 1), Open(cs, bs, gap, n - 1), Runs(cs, bs, gap, n));
    }
  }

  lemma {:induction false} FitNext(cs: seq<nat>, bs: seq<nat>, gap: nat, n: nat, rs: seq<Run>, r: Run, next: seq<Run>)
    requires 1 < n <= |cs| == |bs| && AllFit(cs, bs, gap, n - 1, rs + [r])
    requires next == if Break(cs, bs, gap, n - 1) then rs + [r] + [Run(cs[n - 1], bs[n - 1], bs[n - 1], n - 1)] else rs + [r.(last := bs[n - 1])]
    ensures AllFit(cs, bs, gap, n, next)
  {
    if Break(cs, bs, gap, n - 1) {
      FitBreak(cs, bs, gap, n, rs + [r]);
    } else {
      FitJoin(cs, bs, gap, n, rs, r);
    }
  }

  lemma {:induction false} FitFirst(cs: seq<nat>, bs: seq<nat>, gap: nat, rs: seq<Run>)
    requires 1 <= |cs| == |bs| && rs == [Run(cs[0], bs[0], bs[0], 0)]
    ensures AllFit(cs, bs, gap, 1, rs)
  {
  }

  /** The first run starts with the first item. */
  lemma {:induction false} FirstRun(cs: seq<nat>, bs: seq<nat>, gap: nat, n: nat)
    requires 0 < n <= |cs| == |bs|
    ensures Runs(cs, bs, gap, n)[0].start == 0
  {
    if n > 1 { FirstRun(cs, bs, gap, n - 1); }
  }

  /** A break starts a new run behind the others. */
  lemma {:induction false} FitBreak(cs: seq<nat>, bs: seq<nat>, gap: nat, n: nat, rs: seq<Run>)
    requires 1 < n <= |cs| == |bs| && AllFit(cs, bs, gap, n - 1, rs) && Break(cs, bs, gap, n - 1)
    ensures AllFit(cs, bs, gap, n, rs + [Run(cs[n - 1], bs[n - 1], bs[n - 1], n - 1)])
  {
    var next := rs + [Run(cs[n - 1], bs[n - 1], bs[n - 1], n - 1)];
    forall k | 0 <= k < |next| ensures RunFits(cs, bs, gap, n, next[k], End(next, n, k)) {
      if k < |rs| {
        assert RunFits(cs, bs, gap, n - 1, rs[k], End(rs, n - 1, k));
      }
    }
  }

  /** Otherwise the last run grows. */
  lemma {:induction false} FitJoin(cs: seq<nat>, bs: seq<nat>, gap: nat, n: nat, rs: seq<Run>, r: Run)
    requires 1 < n <= |cs| == |bs| && AllFit(cs, bs, gap, n - 1, rs + [r]) && !Break(cs, bs, gap, n - 1)
    ensures AllFit(cs, bs, gap, n, rs + [r.(last := bs[n - 1])])
  {
    var front, next := rs + [r], rs + [r.(last := bs[n - 1])];
    forall k | 0 <= k < |next| ensures RunFits(cs, bs, gap, n, next[k], End(next, n, k)) {
      assert RunFits(cs, bs, gap, n - 1, front[k], End(front, n - 1, k));
      if k < |rs| {
        assert next[k] == front[k] && End(next, n, k) == End(front, n - 1, k);
      }
    }
  }

  /** All items of a run lie in its chunk, between its first and last block. */
  lemma {:induction false} RunItem(cs: seq<nat>, bs: seq<nat>, gap: nat, n: nat, r: Run, end: nat, i: nat)
    requires Ascending(cs, bs) && n <= |cs| && RunFits(cs, bs, gap, n, r, end) && r.start <= i < end
    ensures cs[i] == r.chunk && r.first <= bs[i] <= r.last
    decreases end - i
  {
    RunChunk(cs, bs, gap, n, r, end, i);
    if i + 1 < end {
      RunItem(cs, bs, gap, n, r, end, i + 1);
      assert Follows(cs, bs, i + 1) && !Break(cs, bs, gap, i + 1);
    }
  }

  lemma {:induction false} RunChunk(cs: seq<nat>, bs: seq<nat>, gap: nat, n: nat, r: Run, end: nat, i: nat)
    requires Ascending(cs, bs) && n <= |cs| && RunFits(cs, bs, gap, n, r, end) && r.start <= i < end
    ensures cs[i] == r.chunk && r.first <= bs[i]
    decreases i
  {
    if r.start < i {
      RunChunk(cs, bs, gap, n, r, end, i - 1);
      assert Follows(cs, bs, i) && !Break(cs, bs, gap, i);
    }
  }

  lemma {:induction false} ItemInRun(cs: seq<nat>, bs: seq<nat>, gap: nat, rs: seq<Run>, k: nat, i: nat)
    requires Ascending(cs, bs) && rs == Runs(cs, bs, gap, |cs|) && k < |rs| && rs[k].start <= i < End(rs, |cs|, k)
    ensures i < |cs| && rs[k].chunk == cs[i] && rs[k].first <= bs[i] <= rs[k].last
  {
    RunsPartition(cs, bs, gap, |cs|);
    assert RunFits(cs, bs, gap, |cs|, rs[k], End(rs, |cs|, k));
    RunItem(cs, bs, gap, |cs|, rs[k], End(rs, |cs|, k), i);
  }

  lemma {:induction false} RunEnds(cs: seq<nat>, bs: seq<nat>, gap: nat, rs: seq<Run>, k: nat)
    requires |cs| == |bs| && rs == Runs(cs, bs, gap, |cs|) && k < |rs|
    ensures rs[k].start < End(rs, |cs|, k) <= |cs| && Break(cs, bs, gap, rs[k].start)
    ensures rs[k].first == bs[rs[k].start] && rs[k].last == bs[End(rs, |cs|, k) - 1] && rs[k].chunk == cs[rs[k].start]
  {
    RunsPartition(cs, bs, gap, |cs|);
    assert RunFits(cs, bs, gap, |cs|, rs[k], End(rs, |cs|, k));
  }

  /** Reads of a chunk are disjoint, in order and more than gap blocks apart. */
  lemma {:induction false} RunsAreDisjoint(cs: seq<nat>, bs: seq<nat>, gap: nat, rs: seq<Run>, k: nat)
    requires Ascending(cs, bs) && rs == Runs(cs, bs, gap, |cs|) && k + 1 < |rs|
    ensures rs[k].chunk < rs[k + 1].chunk || (rs[k].chunk == rs[k + 1].chunk && rs[k].last + gap + 1 < rs[k + 1].first)
  {
    var i := rs[k + 1].start;
    RunEnds(cs, bs, gap, rs, k);
    RunEnds(cs, bs, gap, rs, k + 1);
    ItemInRun(cs, bs, gap, rs, k, i - 1);
    assert Follows(cs, bs, i);
  }

  // ---- no partition has fewer reads ----

  /** Any way to cut the items into reads has a cut at every break; starts are its cuts. */
  ghost predicate IsCut(cs: seq<nat>, bs: seq<nat>, gap: nat, n: nat, starts: seq<nat>)
    requires n <= |cs| == |bs|
  {
    && (forall j :: 0 <= j < |starts| ==> starts[j] < n)
    && (forall j, k :: 0 <= j < k < |starts| ==> starts[j] < starts[k])
    && (forall i :: 0 <= i < n && Break(cs, bs, gap, i) ==> i in starts)
  }

  lemma {:induction false} FewestReads(cs: seq<nat>, bs: seq<nat>, gap: nat, n: nat, starts: seq<nat>)
    requires n <= |cs| == |bs| && IsCut(cs, bs, gap, n, starts)
    ensures |Runs(cs, bs, gap, n)| <= |starts|
    decreases n
  {
    if n > 0 {
      CutBefore(cs, bs, gap, n, starts);
      FewestReads(cs, bs, gap, n - 1, CutsBefore(starts, n - 1));
    }
  }

  /** The cuts before position n. */
  function CutsBefore(starts: seq<nat>, n: nat): seq<nat> {
    if starts != [] && starts[|starts| - 1] == n then starts[..|starts| - 1] else starts
  }

  lemma {:induction false} LastIsLargest(starts: seq<nat>, j: nat)
    requires j < |starts| && forall i, k :: 0 <= i < k < |starts| ==> starts[i] < starts[k]
    ensures starts[j] <= starts[|starts| - 1]
  {
  }

  lemma {:induction false} CutBefore(cs: seq<nat>, bs: seq<nat>, gap: nat, n: nat, starts: seq<nat>)
    requires 0 < n <= |cs| == |bs| && IsCut(cs, bs, gap, n, starts)
    ensures IsCut(cs, bs, gap, n - 1, CutsBefore(starts, n - 1))
    ensures |CutsBefore(starts, n - 1)| + (if Break(cs, bs, gap, n - 1) then 1 else 0) <= |starts|
  {
    var front := CutsBefore(starts, n - 1);
    if Break(cs, bs, gap, n - 1) {
      var j :| 0 <= j < |starts| && starts[j] == n - 1;
      LastIsLargest(starts, j);
    }
    forall i | 0 <= i < n - 1 && Break(cs, bs, gap, i) ensures i in front {
      var j :| 0 <= j < |starts| && starts[j] == i;
      assert front[j] == i;
    }
  }

  /** The runs' own starts are such a cut, so the bound is met. */
  lemma {:induction false} RunsAreCut(cs: seq<nat>, bs: seq<nat>, gap: nat, n: nat, starts: seq<nat>)
    requires n <= |cs| == |bs| && |starts| == |Runs(cs, bs, gap, n)|
    requires forall k :: 0 <= k < |starts| ==> starts[k] == Runs(cs, bs, gap, n)[k].start
    ensures IsCut(cs, bs, gap, n, starts)
  {
    var rs := Runs(cs, bs, gap, n);
    RunsPartition(cs, bs, gap, n);
    forall k | 0 <= k < |rs| ensures rs[k].start < End(rs, n, k) <= n {
      assert RunFits(cs, bs, gap, n, rs[k], End(rs, n, k));
    }
    forall j, k | 0 <= j < k < |starts| ensures starts[j] < starts[k] {
      StartsIncrease(rs, n, j, k);
    }
    forall i | 0 <= i < n && Break(cs, bs, gap, i) ensures i in starts {
      BreakIsStart(cs, bs, gap, n, i);
      var k :| 0 <= k < |rs| && rs[k].start == i;
      assert starts[k] == i;
    }
  }

  lemma {:induction false} StartsIncrease(rs: seq<Run>, n: nat, j: nat, k: nat)
    requires j < k < |rs| && forall l :: 0 <= l < |rs| ==> rs[l].start < End(rs, n, l)
    ensures rs[j].start < rs[k].start
    decreases k
  {
    assert rs[k - 1].start < End(rs, n, k - 1);
    if j < k - 1 { StartsIncrease(rs, n, j, k - 1); }
  }

  lemma {:induction false} BreakIsStart(cs: seq<nat>, bs: seq<nat>, gap: nat, n: nat, i: nat)
    requires i < n <= |cs| == |bs| && Break(cs, bs, gap, i)
    ensures exists k :: 0 <= k < |Runs(cs, bs, gap, n)| && Runs(cs, bs, gap, n)[k].start == i
    decreases n
  {
    var rs := Runs(cs, bs, gap, n);
    if i == n - 1 {
      assert rs[|rs| - 1].start == i;
    } else {
      BreakIsStart(cs, bs, gap, n - 1, i);
      var k :| 0 <= k < |Runs(cs, bs, gap, n - 1)| && Runs(cs, bs, gap, n - 1)[k].start == i;
      assert rs[k].start == i;
    }
  }

  // ---- how much is read ----

  /** Blocks covered by the first k runs. */
  function Covered(rs: seq<Run>, k: nat): int
    requires k <= |rs|
  {
    if k == 0 then 0 else Covered(rs, k - 1) + (rs[k - 1].last - rs[k - 1].first + 1)
  }

  lemma {:induction false} CoveredPrefix(a: seq<Run>, b: seq<Run>, k: nat)
    requires k <= |a| && k <= |b| && a[..k] == b[..k]
    ensures Covered(a, k) == Covered(b, k)
  {
    if k > 0 {
      assert a[k - 1] == a[..k][k - 1] == b[k - 1];
      assert a[..k - 1] == a[..k][..k - 1] == b[..k - 1];
      CoveredPrefix(a, b, k - 1);
    }
  }

  /** At most gap blocks too many are read for every pair of items joined by a read. */
  lemma {:induction false} OverReadIsBounded(cs: seq<nat>, bs: seq<nat>, gap: nat, n: nat)
    requires Ascending(cs, bs) && n <= |cs|
    ensures var rs := Runs(cs, bs, gap, n);
            |rs| <= n && n <= Covered(rs, |rs|) <= n + gap * (n - |rs|)
  {
    if n > 1 {
      OverReadIsBounded(cs, bs, gap, n - 1);
      var rs, more := Runs(cs, bs, gap, n - 1), Runs(cs, bs, gap, n);
      CoveredNext(cs, bs, gap, n - 1, rs, more);
      BoundNext(Covered(rs, |rs|), Covered(more, |more|), gap, n - 1, |rs|, |more|);
    } else if n == 1 {
      CoveredMore([], Open(cs, bs, gap, 1));
    }
  }

  /** The next item adds one block in a run of its own, or up to gap more to the run it joins. */
  lemma {:induction false} CoveredNext(cs: seq<nat>, bs: seq<nat>, gap: nat, n: nat, rs: seq<Run>, more: seq<Run>)
    requires Ascending(cs, bs) && 0 < n < |cs| && rs == Runs(cs, bs, gap, n) && more == Runs(cs, bs, gap, n + 1)
    ensures 0 < |rs| <= |more| <= |rs| + 1
    ensures Covered(rs, |rs|) + 1 <= Covered(more, |more|) <= Covered(rs, |rs|) + 1 + if |more| == |rs| then gap else 0
  {
    assert Follows(cs, bs, n);
    CoveredMore(Closed(cs, bs, gap, n), Open(cs, bs, gap, n));
    CoveredMore(Closed(cs, bs, gap, n + 1), Open(cs, bs, gap, n + 1));
  }

  lemma {:induction false} BoundNext(c: int, d: int, gap: nat, n: nat, k: nat, l: nat)
    requires 0 < k <= n <= c <= n + gap * (n - k) && k <= l <= k + 1
    requires c + 1 <= d <= c + 1 + if l == k then gap else 0
    ensures l <= n + 1 <= d <= n + 1 + gap * (n + 1 - l)
  {
    OneMore(gap, n - k);
  }

  lemma {:induction false} CoveredMore(rs: seq<Run>, r: Run)
    ensures Covered(rs + [r], |rs| + 1) == Covered(rs, |rs|) + (r.last - r.first + 1)
  {
    CoveredPrefix(rs, rs + [r], |rs|);
  }

  lemma {:induction false} OneMore(gap: nat, k: nat)
    ensures gap * (k + 1) == gap * k + gap
  {
  }

  // ---- merging slab by slab ----

  /** The runs of a later part of the list, in positions of the whole list. */
  function Moved(rs: seq<Run>, d: nat): (r: seq<Run>)
    ensures |r| == |rs| && forall k :: 0 <= k < |rs| ==> r[k] == rs[k].(start := rs[k].start + d)
  {
    if rs == [] then [] else Moved(rs[..|rs| - 1], d) + [rs[|rs| - 1].(start := rs[|rs| - 1].start + d)]
  }

  /** Two lists that agree up to a position have the same runs up to it. */
  lemma {:induction false} OpenSame(cs: seq<nat>, bs: seq<nat>, ds: seq<nat>, es: seq<nat>, gap: nat, n: nat)
    requires |cs| == |bs| && |ds| == |es| && n <= |cs| && n <= |ds|
    requires forall i :: 0 <= i < n ==> cs[i] == ds[i] && bs[i] == es[i]
    ensures n > 0 ==> Open(cs, bs, gap, n) == Open(ds, es, gap, n)
    ensures Closed(cs, bs, gap, n) == Closed(ds, es, gap, n)
    decreases n
  {
    if n > 0 {
      OpenSame(cs, bs, ds, es, gap, n - 1);
      assert Break(cs, bs, gap, n - 1) == Break(ds, es, gap, n - 1);
    }
  }

  lemma {:induction false} RunsPrefixSame(cs: seq<nat>, bs: seq<nat>, ds: seq<nat>, es: seq<nat>, gap: nat, n: nat)
    requires |cs| == |bs| && |ds| == |es| && n <= |cs| && n <= |ds|
    requires forall i :: 0 <= i < n ==> cs[i] == ds[i] && bs[i] == es[i]
    ensures Runs(cs, bs, gap, n) == Runs(ds, es, gap, n)
  {
    OpenSame(cs, bs, ds, es, gap, n);
  }

  /** Items from position d on are another list. */
  ghost predicate Continues(cs: seq<nat>, bs: seq<nat>, d: nat, ds: seq<nat>, es: seq<nat>) {
    && |cs| == |bs| && |ds| == |es| && d + |ds| <= |cs|
    && (forall i :: 0 <= i < |ds| ==> cs[d + i] == ds[i] && bs[d + i] == es[i])
  }

  function MovedRun(r: Run, d: nat): Run {
    r.(start := r.start + d)
  }

  lemma {:induction false} OpenContinues(cs: seq<nat>, bs: seq<nat>, d: nat, ds: seq<nat>, es: seq<nat>, gap: nat, n: nat, at: nat)
    requires Continues(cs, bs, d, ds, es) && 0 < n <= |ds| && at == d + n
    requires d > 0 ==> cs[d - 1] != cs[d]
    ensures Open(cs, bs, gap, at) == MovedRun(Open(ds, es, gap, n), d)
    decreases n
  {
    var m := n - 1;
    assert cs[d + m] == ds[m] && bs[d + m] == es[m];
    SameBreak(cs, bs, d, ds, es, gap, m);
    if n > 1 {
      OpenContinues(cs, bs, d, ds, es, gap, m, at - 1);
    }
  }

  /** The closed runs of the whole list are those in front and the part's own, moved. */
  ghost predicate ClosedMoves(cs: seq<nat>, bs: seq<nat>, d: nat, ds: seq<nat>, es: seq<nat>, gap: nat, n: nat, at: nat, front: seq<Run>)
    requires |cs| == |bs| && |ds| == |es| && n <= |ds| && at <= |cs|
  {
    Closed(cs, bs, gap, at) == front + Moved(Closed(ds, es, gap, n), d)
  }

  lemma {:induction false} ClosedContinues(cs: seq<nat>, bs: seq<nat>, d: nat, ds: seq<nat>, es: seq<nat>, gap: nat, n: nat, at: nat, front: seq<Run>)
    requires Continues(cs, bs, d, ds, es) && 0 < n <= |ds| && at == d + n
    requires d > 0 ==> cs[d - 1] != cs[d]
    requires front == Runs(cs, bs, gap, d)
    ensures ClosedMoves(cs, bs, d, ds, es, gap, n, at, front)
    decreases n
  {
    if n == 1 {
      ClosedFirst(cs, bs, d, ds, es, gap, at, front);
    } else {
      ClosedContinues(cs, bs, d, ds, es, gap, n - 1, at - 1, front);
      ClosedStep(cs, bs, d, ds, es, gap, n, at, front);
    }
  }

  lemma {:induction false} ClosedFirst(cs: seq<nat>, bs: seq<nat>, d: nat, ds: seq<nat>, es: seq<nat>, gap: nat, at: nat, front: seq<Run>)
    requires Continues(cs, bs, d, ds, es) && 1 <= |ds| && at == d + 1 && (d > 0 ==> cs[d - 1] != cs[d]) && front == Runs(cs, bs, gap, d)
    ensures ClosedMoves(cs, bs, d, ds, es, gap, 1, at, front)
  {
    SameBreak(cs, bs, d, ds, es, gap, 0);
    ClosedBase(cs, bs, d, gap, at, front);
    AppendNothing(front, Closed(ds, es, gap, 1), d);
  }

  lemma {:induction false} ClosedStep(cs: seq<nat>, bs: seq<nat>, d: nat, ds: seq<nat>, es: seq<nat>, gap: nat, n: nat, at: nat, front: seq<Run>)
    requires Continues(cs, bs, d, ds, es) && 1 < n <= |ds| && at == d + n
    requires d > 0 ==> cs[d - 1] != cs[d]
    requires ClosedMoves(cs, bs, d, ds, es, gap, n - 1, at - 1, front)
    ensures ClosedMoves(cs, bs, d, ds, es, gap, n, at, front)
  {
    SameBreak(cs, bs, d, ds, es, gap, n - 1);
    OpenContinues(cs, bs, d, ds, es, gap, n - 1, at - 1);
    CloseAlike(cs, bs, d, ds, es, gap, n, at, front);
  }

  lemma {:induction false} CloseAlike(cs: seq<nat>, bs: seq<nat>, d: nat, ds: seq<nat>, es: seq<nat>, gap: nat, n: nat, at: nat, front: seq<Run>)
    requires |cs| == |bs| && |ds| == |es| && 1 < n <= |ds| && 1 < at <= |cs|
    requires Break(cs, bs, gap, at - 1) == Break(ds, es, gap, n - 1)
    requires ClosedMoves(cs, bs, d, ds, es, gap, n - 1, at - 1, front)
    requires Open(cs, bs, gap, at - 1) == MovedRun(Open(ds, es, gap, n - 1), d)
    ensures ClosedMoves(cs, bs, d, ds, es, gap, n, at, front)
  {
    if Break(ds, es, gap, n - 1) {
      AppendMore(front, Closed(ds, es, gap, n - 1), Open(ds, es, gap, n - 1), d);
    }
  }

  lemma {:induction false} ClosedBase(cs: seq<nat>, bs: seq<nat>, d: nat, gap: nat, at: nat, front: seq<Run>)
    requires at == d + 1 <= |cs| == |bs| && Break(cs, bs, gap, d) && front == Runs(cs, bs, gap, d)
    ensures Closed(cs, bs, gap, at) == front
  {
  }

  lemma {:induction false} AppendNothing(front: seq<Run>, none: seq<Run>, d: nat)
    requires none == []
    ensures front == front + Moved(none, d)
  {
  }

  lemma {:induction false} AppendMore(front: seq<Run>, rs: seq<Run>, r: Run, d: nat)
    ensures front + Moved(rs, d) + [MovedRun(r, d)] == front + Moved(rs + [r], d)
  {
  }

  /** The reads of the whole list are those of its parts one after another. */
  lemma {:induction false} RunsJoin(cs: seq<nat>, bs: seq<nat>, d: nat, ds: seq<nat>, es: seq<nat>, gap: nat)
    requires Continues(cs, bs, d, ds, es) && |cs| == d + |ds|
    requires 0 < d < |cs| ==> cs[d - 1] != cs[d]
    ensures Runs(cs, bs, gap, |cs|) == Runs(cs, bs, gap, d) + Moved(Runs(ds, es, gap, |ds|), d)
  {
    if ds == [] {
      AppendNothing(Runs(cs, bs, gap, d), Runs(ds, es, gap, |ds|), d);
    } else {
      ClosedContinues(cs, bs, d, ds, es, gap, |ds|, |cs|, Runs(cs, bs, gap, d));
      OpenContinues(cs, bs, d, ds, es, gap, |ds|, |cs|);
      AppendMore(Runs(cs, bs, gap, d), Closed(ds, es, gap, |ds|), Open(ds, es, gap, |ds|), d);
    }
  }

  lemma {:induction false} SameBreak(cs: seq<nat>, bs: seq<nat>, d: nat, ds: seq<nat>, es: seq<nat>, gap: nat, i: nat)
    requires Continues(cs, bs, d, ds, es) && i < |ds|
    requires d > 0 ==> cs[d - 1] != cs[d]
    ensures Break(cs, bs, gap, d + i) == Break(ds, es, gap, i)
  {
    assert cs[d + i] == ds[i] && bs[d + i] == es[i];
    if i > 0 {
      assert cs[d + (i - 1)] == ds[i - 1] && bs[d + (i - 1)] == es[i - 1];
    }
  }

  // ---- byte ranges ----

  /** Bytes start..end of a chunk object, for the listed blocks itemStart..itemEnd. */
  datatype MergedRange = MergedRange(chunk: nat, start: nat, end: nat, firstBlock: nat, itemStart: nat, itemEnd: nat)

  function Range(rs: seq<Run>, n: nat, k: nat, blockSize: nat, base: nat): MergedRange
    requires k < |rs|
  {
    MergedRange(rs[k].chunk, base + rs[k].first * blockSize, base + (rs[k].last + 1) * blockSize, rs[k].first, rs[k].start, End(rs, n, k))
  }

  /** Every listed block's bytes lie in its read, whole, at the offset the decoder uses. */
  lemma {:induction false} OffsetInBounds(cs: seq<nat>, bs: seq<nat>, gap: nat, k: nat, i: nat, blockSize: nat, base: nat)
    requires Ascending(cs, bs) && k < |Runs(cs, bs, gap, |cs|)|
    requires var r := Range(Runs(cs, bs, gap, |cs|), |cs|, k, blockSize, base); r.itemStart <= i < r.itemEnd
    ensures i < |cs|
    ensures var r := Range(Runs(cs, bs, gap, |cs|), |cs|, k, blockSize, base);
            && r.chunk == cs[i] && r.firstBlock <= bs[i]
            && r.start + (bs[i] - r.firstBlock) * blockSize == base + bs[i] * blockSize
            && (bs[i] - r.firstBlock) * blockSize + blockSize <= r.end - r.start
  {
    var rs := Runs(cs, bs, gap, |cs|);
    ItemInRun(cs, bs, gap, rs, k, i);
    OffsetArithmetic(rs[k].first, rs[k].last, bs[i], blockSize, base);
  }

  lemma {:induction false} OffsetArithmetic(first: nat, last: nat, b: nat, n: nat, base: nat)
    requires first <= b <= last
    ensures base + first * n + (b - first) * n == base + b * n
    ensures (b - first) * n + n <= base + (last + 1) * n - (base + first * n)
  {
    Scale(b - first, first, n);
    Scale(b - first, 1, n);
    Scale(last + 1 - first, first, n);
    ScaleUp(b + 1 - first, last + 1 - first, n);
  }

  lemma {:induction false} Scale(a: nat, b: nat, n: nat)
    ensures (a + b) * n == a * n + b * n
  {
  }

  lemma {:induction false} ScaleUp(a: nat, b: nat, n: nat)
    requires a <= b
    ensures a * n <= b * n
  {
  }
}
