/** A filtered aggregate end to end: the IN and MAYBE blocks are read, each read keeps its
  * own totals, and the combined bounds hold for every original value of the array. */
module AggregateQuery {
  import opened Rounding
  import opened FloatBounds
  import opened DoubleBounds
  import opened ZoneMap
  import opened Listing
  import Merge
  import Aggregate
  import Intervals

  type Item = Aggregate.Item
  type Truth = Intervals.Truth

  const NOTHING: Truth := Intervals.Truth(0, 0, 0, 0.0, Intervals.Sized(0.0, 0.0))

  // ---- truths of blocks add up ----

  lemma {:induction false} TruthAppends(fp: Arith, a: seq<Item>, b: seq<Item>, lo: Ext, hi: Ext)
    ensures Intervals.TruthOf(fp, a + b, lo, hi) == Intervals.JoinTruth(Intervals.TruthOf(fp, a, lo, hi), Intervals.TruthOf(fp, b, lo, hi))
    decreases |b|
  {
    if b == [] {
      assert a + b == a;
    } else {
      var n := |b| - 1;
      assert (a + b)[..|a + b| - 1] == a + b[..n];
      TruthAppends(fp, a, b[..n], lo, hi);
      OneMoreTruth(fp, Intervals.TruthOf(fp, a, lo, hi), Intervals.TruthOf(fp, b[..n], lo, hi), b[n], lo, hi);
    }
  }

  lemma {:induction false} OneMoreTruth(fp: Arith, t: Truth, u: Truth, it: Item, lo: Ext, hi: Ext)
    ensures Intervals.AddTruth(fp, Intervals.JoinTruth(t, u), it, lo, hi) == Intervals.JoinTruth(t, Intervals.AddTruth(fp, u, it, lo, hi))
  {
  }

  lemma {:induction false} JoinAssociates(a: Truth, b: Truth, c: Truth)
    ensures Intervals.JoinTruth(Intervals.JoinTruth(a, b), c) == Intervals.JoinTruth(a, Intervals.JoinTruth(b, c))
    ensures Intervals.JoinTruth(a, NOTHING) == a == Intervals.JoinTruth(NOTHING, a)
  {
  }

  /** The truths of all blocks, chunk by chunk. */
  function RowTruth(tr: seq<Truth>, n: nat): Truth
    requires n <= |tr|
  {
    if n == 0 then NOTHING else Intervals.JoinTruth(RowTruth(tr, n - 1), tr[n - 1])
  }

  /** What an unfiltered scan of the originals and the decoded values would find. */
  function ArrayTruth(tr: seq<seq<Truth>>, n: nat): Truth
    requires n <= |tr|
  {
    if n == 0 then NOTHING else Intervals.JoinTruth(ArrayTruth(tr, n - 1), RowTruth(tr[n - 1], |tr[n - 1]|))
  }

  ghost predicate InTable<T>(table: seq<seq<T>>, es: seq<Entry>) {
    forall i :: 0 <= i < |es| ==> es[i].chunk < |table| && es[i].block < |table[es[i].chunk]|
  }

  /** The truths of the first n listed blocks. */
  ghost function ListedTruth(tr: seq<seq<Truth>>, es: seq<Entry>, n: nat): Truth
    requires InTable(tr, es) && n <= |es|
  {
    if n == 0 then NOTHING else Intervals.JoinTruth(ListedTruth(tr, es, n - 1), tr[es[n - 1].chunk][es[n - 1].block])
  }

  lemma {:induction false} ListedPrefix(tr: seq<seq<Truth>>, a: seq<Entry>, b: seq<Entry>, n: nat)
    requires InTable(tr, a) && InTable(tr, b) && n <= |a| && a <= b
    ensures ListedTruth(tr, a, n) == ListedTruth(tr, b, n)
  {
    if n > 0 { ListedPrefix(tr, a, b, n - 1); }
  }

  lemma {:induction false} ListedAppends(tr: seq<seq<Truth>>, a: seq<Entry>, b: seq<Entry>, all: seq<Entry>, n: nat)
    requires InTable(tr, a) && InTable(tr, b) && InTable(tr, all) && all == a + b && n <= |b|
    ensures ListedTruth(tr, all, |a| + n) == Intervals.JoinTruth(ListedTruth(tr, a, |a|), ListedTruth(tr, b, n))
    decreases n
  {
    if n == 0 {
      ListedPrefix(tr, a, all, |a|);
      JoinAssociates(ListedTruth(tr, a, |a|), NOTHING, NOTHING);
    } else {
      ListedAppends(tr, a, b, all, n - 1);
      assert all[|a| + n - 1] == b[n - 1];
      JoinAssociates(ListedTruth(tr, a, |a|), ListedTruth(tr, b, n - 1), tr[b[n - 1].chunk][b[n - 1].block]);
    }
  }

  /** OUT blocks hold nothing that matches. */
  ghost predicate OutIsNothing(rows: seq<seq<State>>, tr: seq<seq<Truth>>) {
    && |rows| == |tr|
    && forall c :: 0 <= c < |rows| ==> RowOutIsNothing(rows[c], tr[c])
  }

  ghost predicate RowOutIsNothing(sts: seq<State>, tr: seq<Truth>) {
    |sts| == |tr| && forall b :: 0 <= b < |sts| && sts[b] == Out ==> tr[b] == NOTHING
  }

  /** The listed blocks hold t in all. */
  ghost predicate AddUpTo(tr: seq<seq<Truth>>, es: seq<Entry>, t: Truth) {
    InTable(tr, es) && ListedTruth(tr, es, |es|) == t
  }

  lemma {:induction false} BlocksTruth(tr: seq<seq<Truth>>, c: nat, sts: seq<State>, errs: seq<real>, n: nat)
    requires n <= |sts| == |errs| && c < |tr| && RowOutIsNothing(sts, tr[c])
    ensures AddUpTo(tr, ListBlocks(c, sts, errs, true, n), RowTruth(tr[c], n))
  {
    if n > 0 {
      BlocksTruth(tr, c, sts, errs, n - 1);
      NextBlock(tr, ListBlocks(c, sts, errs, true, n - 1), Entry(c, n - 1, sts[n - 1], errs[n - 1]), ListBlocks(c, sts, errs, true, n));
    }
  }

  lemma {:induction false} NextBlock(tr: seq<seq<Truth>>, front: seq<Entry>, e: Entry, es: seq<Entry>)
    requires e.chunk < |tr| && e.block < |tr[e.chunk]| && (e.state == Out ==> tr[e.chunk][e.block] == NOTHING)
    requires AddUpTo(tr, front, RowTruth(tr[e.chunk], e.block)) && es == if IsListed(e.state, true) then front + [e] else front
    ensures AddUpTo(tr, es, RowTruth(tr[e.chunk], e.block + 1))
  {
    NextOfRow(tr[e.chunk], e.block);
    if e.state != Out {
      ListedMore(tr, front, e, RowTruth(tr[e.chunk], e.block));
    }
  }

  lemma {:induction false} NextOfRow(tr: seq<Truth>, b: nat)
    requires b < |tr|
    ensures RowTruth(tr, b + 1) == Intervals.JoinTruth(RowTruth(tr, b), tr[b])
    ensures tr[b] == NOTHING ==> RowTruth(tr, b + 1) == RowTruth(tr, b)
  {
  }

  lemma {:induction false} ListedMore(tr: seq<seq<Truth>>, front: seq<Entry>, e: Entry, t: Truth)
    requires AddUpTo(tr, front, t) && e.chunk < |tr| && e.block < |tr[e.chunk]|
    ensures AddUpTo(tr, front + [e], Intervals.JoinTruth(t, tr[e.chunk][e.block]))
  {
    InTableMore(tr, front, e);
    ListedPrefix(tr, front, front + [e], |front|);
  }

  lemma {:induction false} InTableMore(tr: seq<seq<Truth>>, front: seq<Entry>, e: Entry)
    requires InTable(tr, front) && e.chunk < |tr| && e.block < |tr[e.chunk]|
    ensures InTable(tr, front + [e])
  {
  }

  /** The IN and MAYBE blocks hold all of the truth. */
  lemma {:induction false} ListHoldsTruth(tr: seq<seq<Truth>>, rows: seq<seq<State>>, errs: seq<seq<real>>, n: nat)
    requires SameShape(rows, errs) && OutIsNothing(rows, tr) && n <= |rows|
    ensures AddUpTo(tr, ListChunks(0, rows, errs, true, n), ArrayTruth(tr, n))
  {
    if n > 0 {
      ListHoldsTruth(tr, rows, errs, n - 1);
      assert RowOutIsNothing(rows[n - 1], tr[n - 1]);
      RowHoldsTruth(tr, n - 1, rows[n - 1], errs[n - 1], ListChunks(0, rows, errs, true, n - 1), ListChunks(0, rows, errs, true, n));
    }
  }

  lemma {:induction false} RowHoldsTruth(tr: seq<seq<Truth>>, c: nat, row: seq<State>, er: seq<real>, front: seq<Entry>, es: seq<Entry>)
    requires c < |tr| && |row| == |er| && RowOutIsNothing(row, tr[c]) && AddUpTo(tr, front, ArrayTruth(tr, c))
    requires es == front + ListBlocks(c, row, er, true, |row|)
    ensures AddUpTo(tr, es, ArrayTruth(tr, c + 1))
  {
    var b := ListBlocks(c, row, er, true, |row|);
    BlocksTruth(tr, c, row, er, |row|);
    ListedAppends(tr, front, b, es, |b|);
  }

  // ---- reads ----

  /** The values of listed blocks a..b, in order. */
  ghost function Values(items: seq<seq<seq<Item>>>, es: seq<Entry>, a: nat, b: nat): seq<Item>
    requires InTable(items, es) && a <= b <= |es|
    decreases b - a
  {
    if a == b then [] else Values(items, es, a, b - 1) + items[es[b - 1].chunk][es[b - 1].block]
  }

  /** tr is the truth of each block's values. */
  ghost predicate IsTruthTable(fp: Arith, items: seq<seq<seq<Item>>>, tr: seq<seq<Truth>>, lo: Ext, hi: Ext) {
    && |items| == |tr|
    && forall c :: 0 <= c < |tr| ==> IsTruthRow(fp, items[c], tr[c], lo, hi)
  }

  ghost predicate IsTruthRow(fp: Arith, items: seq<seq<Item>>, tr: seq<Truth>, lo: Ext, hi: Ext) {
    |items| == |tr| && forall b :: 0 <= b < |tr| ==> tr[b] == Intervals.TruthOf(fp, items[b], lo, hi)
  }

  /** A read's values hold the truth of its blocks. */
  lemma {:induction false} ReadTruth(fp: Arith, items: seq<seq<seq<Item>>>, tr: seq<seq<Truth>>, es: seq<Entry>, a: nat, b: nat, lo: Ext, hi: Ext)
    requires IsTruthTable(fp, items, tr, lo, hi) && InTable(items, es) && InTable(tr, es) && a <= b <= |es|
    ensures Intervals.JoinTruth(ListedTruth(tr, es, a), Intervals.TruthOf(fp, Values(items, es, a, b), lo, hi)) == ListedTruth(tr, es, b)
    decreases b - a
  {
    if a == b {
      JoinAssociates(ListedTruth(tr, es, a), NOTHING, NOTHING);
    } else {
      ReadTruth(fp, items, tr, es, a, b - 1, lo, hi);
      BlockTruth(fp, items, tr, es[b - 1], lo, hi);
      ReadStep(fp, ListedTruth(tr, es, a), ListedTruth(tr, es, b - 1), Values(items, es, a, b - 1),
               items[es[b - 1].chunk][es[b - 1].block], tr[es[b - 1].chunk][es[b - 1].block], lo, hi);
    }
  }

  lemma {:induction false} BlockTruth(fp: Arith, items: seq<seq<seq<Item>>>, tr: seq<seq<Truth>>, e: Entry, lo: Ext, hi: Ext)
    requires IsTruthTable(fp, items, tr, lo, hi) && e.chunk < |tr| && e.block < |tr[e.chunk]|
    ensures e.chunk < |items| && e.block < |items[e.chunk]|
    ensures tr[e.chunk][e.block] == Intervals.TruthOf(fp, items[e.chunk][e.block], lo, hi)
  {
    assert IsTruthRow(fp, items[e.chunk], tr[e.chunk], lo, hi);
  }

  lemma {:induction false} ReadStep(fp: Arith, before: Truth, upTo: Truth, values: seq<Item>, block: seq<Item>, t: Truth, lo: Ext, hi: Ext)
    requires Intervals.JoinTruth(before, Intervals.TruthOf(fp, values, lo, hi)) == upTo && t == Intervals.TruthOf(fp, block, lo, hi)
    ensures Intervals.JoinTruth(before, Intervals.TruthOf(fp, values + block, lo, hi)) == Intervals.JoinTruth(upTo, t)
  {
    TruthAppends(fp, values, block, lo, hi);
    JoinAssociates(before, Intervals.TruthOf(fp, values, lo, hi), t);
  }

  /** Cuts of the list into reads: from 0 to the end, each read up to the next cut. */
  ghost predicate IsCutting(cuts: seq<nat>, n: nat) {
    && |cuts| > 0 && cuts[0] == 0 && cuts[|cuts| - 1] == n
    && forall k :: 0 < k < |cuts| ==> cuts[k - 1] <= cuts[k] <= n
  }

  /** The values of each read. */
  ghost function Groups(items: seq<seq<seq<Item>>>, es: seq<Entry>, cuts: seq<nat>, k: nat): (groups: seq<seq<Item>>)
    requires InTable(items, es) && IsCutting(cuts, |es|) && k < |cuts|
    ensures |groups| == k && forall j :: 0 < j <= k ==> cuts[j - 1] <= cuts[j] <= |es| && groups[j - 1] == Values(items, es, cuts[j - 1], cuts[j])
  {
    if k == 0 then [] else Groups(items, es, cuts, k - 1) + [Values(items, es, cuts[k - 1], cuts[k])]
  }

  lemma {:induction false} GroupsTruth(fp: Arith, items: seq<seq<seq<Item>>>, tr: seq<seq<Truth>>, es: seq<Entry>, cuts: seq<nat>, k: nat, lo: Ext, hi: Ext)
    requires IsTruthTable(fp, items, tr, lo, hi) && InTable(items, es) && InTable(tr, es) && IsCutting(cuts, |es|) && k < |cuts|
    ensures cuts[k] <= |es| && Intervals.TruthOfAll(fp, Groups(items, es, cuts, k), lo, hi) == ListedTruth(tr, es, cuts[k])
  {
    if k > 0 {
      GroupsTruth(fp, items, tr, es, cuts, k - 1, lo, hi);
      ReadTruth(fp, items, tr, es, cuts[k - 1], cuts[k], lo, hi);
      var groups := Groups(items, es, cuts, k);
      assert groups[..k - 1] == Groups(items, es, cuts, k - 1);
    }
  }

  // ---- the answer ----

  /** Every read's totals, and how many blocks it read. */
  ghost predicate Totalled(fp: Arith, parts: seq<Intervals.Part>, groups: seq<seq<Item>>, lo: Ext, hi: Ext) {
    && |parts| == |groups|
    && forall i :: 0 <= i < |parts| ==> Intervals.ValidPart(fp, parts[i], groups[i], 64, lo, hi)
  }

  /** When OUT blocks hold nothing and every read is totalled, the count, sum and mean of the
    * matching originals of the whole array lie in the aggregate's intervals, and its count is
    * that of the matching decoded values, whatever the reads the list was cut into. */
  lemma {:induction false} AggregateEnclosesArray(fp: Arith, rows: seq<seq<State>>, errs: seq<seq<real>>, items: seq<seq<seq<Item>>>,
                                                  tr: seq<seq<Truth>>, es: seq<Entry>, cuts: seq<nat>, parts: seq<Intervals.Part>, lo: Ext, hi: Ext)
    requires Binary64(fp) && ValidBounds(fp, lo, hi)
    requires SameShape(rows, errs) && es == ListChunks(0, rows, errs, true, |rows|)
    requires IsTruthTable(fp, items, tr, lo, hi) && OutIsNothing(rows, tr) && InTable(items, es)
    requires IsCutting(cuts, |es|) && Totalled(fp, parts, Groups(items, es, cuts, |cuts| - 1), lo, hi)
    ensures Intervals.Encloses(Intervals.Combine(fp, parts, 64), ArrayTruth(tr, |tr|))
  {
    ListHoldsTruth(tr, rows, errs, |rows|);
    var groups := Groups(items, es, cuts, |cuts| - 1);
    GroupsTruth(fp, items, tr, es, cuts, |cuts| - 1, lo, hi);
    Intervals.CombineEnclosesTruth(fp, parts, groups, 64, lo, hi);
  }

  // ---- what the classification gives ----

  /** A block whose originals and decoded values are all out of range has nothing to find. */
  lemma {:induction false} OutOfRangeIsNothing(fp: Arith, its: seq<Item>, lo: Ext, hi: Ext)
    requires forall i :: 0 <= i < |its| ==> !InRange(Fin(its[i].orig), lo, hi) && !InRange(Fin(its[i].r), lo, hi)
    ensures Intervals.TruthOf(fp, its, lo, hi) == NOTHING
  {
    if its != [] {
      OutOfRangeIsNothing(fp, its[..|its| - 1], lo, hi);
    }
  }

  /** A classified block's values are as the aggregate needs them: those of an OUT block add
    * nothing, and those of a listed block are valid with the listed error bound. */
  lemma {:induction false} ClassifiedItems(fp: Arith, rec: Record, mins: seq<real>, maxs: seq<real>, b: nat, lo: Ext, hi: Ext, its: seq<Item>, eps: real)
    requires Binary64(fp) && Written(fp, rec, mins, maxs) && b < |mins|
    requires Rep(fp, eps) && 0.0 <= BlockError(fp, rec, b) <= eps
    requires forall i :: 0 <= i < |its| ==>
               && Rep(fp, its[i].orig) && Rep(fp, its[i].r) && mins[b] <= its[i].orig <= maxs[b]
               && Abs(its[i].orig - its[i].r) <= BlockError(fp, rec, b) && its[i].eps == eps
               && its[i].inBlock == (StateOf(fp, rec, b, lo, hi) == In)
               && (Abs(its[i].r) + eps == 0.0 || (Abs(its[i].r) + eps) * 713623846352979940529142984724747568191373312.0 >= 1.0)
    ensures StateOf(fp, rec, b, lo, hi) == Out ==> Intervals.TruthOf(fp, its, lo, hi) == NOTHING
    ensures Aggregate.ValidItems(fp, its, lo, hi)
  {
    forall i | 0 <= i < |its|
      ensures Aggregate.ValidItem(fp, its[i], lo, hi)
      ensures StateOf(fp, rec, b, lo, hi) == Out ==> !InRange(Fin(its[i].orig), lo, hi) && !InRange(Fin(its[i].r), lo, hi)
    {
      ClassificationIsSound(fp, rec, mins, maxs, b, lo, hi, its[i].orig, its[i].r);
    }
    if StateOf(fp, rec, b, lo, hi) == Out {
      OutOfRangeIsNothing(fp, its, lo, hi);
    }
  }

  /** The starts of the merged reads, and the end, are such cuts. */
  lemma {:induction false} ReadsAreCuts(cs: seq<nat>, bs: seq<nat>, gap: nat, cuts: seq<nat>)
    requires |cs| == |bs| && |cs| > 0 && |cuts| == |Merge.Runs(cs, bs, gap, |cs|)| + 1 && cuts[|cuts| - 1] == |cs|
    requires forall k :: 0 <= k < |cuts| - 1 ==> cuts[k] == Merge.Runs(cs, bs, gap, |cs|)[k].start
    ensures IsCutting(cuts, |cs|)
  {
    var rs := Merge.Runs(cs, bs, gap, |cs|);
    Merge.FirstRun(cs, bs, gap, |cs|);
    forall k | 0 < k < |cuts| ensures cuts[k - 1] <= cuts[k] <= |cs| {
      Merge.RunEnds(cs, bs, gap, rs, k - 1);
    }
  }
}
