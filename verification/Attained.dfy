/** How tight the intervals of an aggregate can be: the originals may be anything between the
  * rounded ends of their values, and then the bounds on the count are reached and the exact
  * ends of the sum are its infimum and its maximum. */
module Attained {
  import opened Rounding
  import opened Summation
  import opened FloatBounds
  import opened DoubleBounds
  import opened Aggregate
  import opened Intervals

  // ---- possible originals ----

  /** jt is it with an original between its rounded ends; values of IN blocks match. */
  ghost predicate IsDraw(fp: Arith, it: Item, jt: Item, lo: Ext, hi: Ext) {
    && jt == it.(orig := jt.orig) && Least(fp, it) <= jt.orig <= Most(fp, it)
    && (it.inBlock ==> Matches(jt, lo, hi))
  }

  ghost predicate AreDraws(fp: Arith, its: seq<Item>, js: seq<Item>, lo: Ext, hi: Ext) {
    |js| == |its| && forall i {:trigger IsDraw(fp, its[i], js[i], lo, hi)} :: 0 <= i < |its| ==> IsDraw(fp, its[i], js[i], lo, hi)
  }

  /** The originals themselves are possible ones... */
  lemma {:induction false} OriginalIsDraw(fp: Arith, it: Item, lo: Ext, hi: Ext)
    requires Binary64(fp) && ValidItem(fp, it, lo, hi)
    ensures IsDraw(fp, it, it, lo, hi)
  {
    EndsEnclose(fp, it, lo, hi);
  }

  /** ...and where the ends are doubles, no possible original is farther away than eps. */
  lemma {:induction false} DrawIsWithin(fp: Arith, it: Item, jt: Item, lo: Ext, hi: Ext)
    requires Rep(fp, it.r - it.eps) && Rep(fp, it.r + it.eps) && IsDraw(fp, it, jt, lo, hi)
    ensures Abs(jt.orig - it.r) <= it.eps
  {
  }

  /** What a draw decides. */
  lemma {:induction false} DrawKinds(fp: Arith, it: Item, jt: Item, lo: Ext, hi: Ext)
    requires IsDraw(fp, it, jt, lo, hi)
    ensures IsSure(fp, jt, lo, hi) == IsSure(fp, it, lo, hi) && IsMaybe(fp, jt, lo, hi) == IsMaybe(fp, it, lo, hi)
    ensures IsSure(fp, it, lo, hi) ==> Matches(jt, lo, hi)
    ensures Matches(jt, lo, hi) ==> IsSure(fp, it, lo, hi) || IsMaybe(fp, it, lo, hi)
  {
  }

  /** A maybe value may fail to match... */
  lemma {:induction false} MissingDraw(fp: Arith, it: Item, lo: Ext, hi: Ext) returns (jt: Item)
    requires Binary64(fp) && ValidItem(fp, it, lo, hi) && IsMaybe(fp, it, lo, hi)
    ensures IsDraw(fp, it, jt, lo, hi) && Rep(fp, jt.orig) && !Matches(jt, lo, hi)
  {
    EndsEnclose(fp, it, lo, hi);
    jt := it.(orig := if lo.Less(Fin(Least(fp, it))) then Most(fp, it) else Least(fp, it));
  }

  /** ...and may match, if the range is not empty, with as large an original as its upper end. */
  lemma {:induction false} MatchingDraw(fp: Arith, it: Item, lo: Ext, hi: Ext) returns (jt: Item)
    requires Binary64(fp) && ValidItem(fp, it, lo, hi) && ValidBounds(fp, lo, hi) && IsMaybe(fp, it, lo, hi) && lo.Less(hi)
    ensures IsDraw(fp, it, jt, lo, hi) && Rep(fp, jt.orig) && Matches(jt, lo, hi) && jt.orig == HighEnd(fp, it, hi)
  {
    EndsEnclose(fp, it, lo, hi);
    jt := it.(orig := HighEnd(fp, it, hi));
  }

  // ---- the count ----

  /** The bounds on the count hold for all possible originals. */
  lemma {:induction false} CountsFit(fp: Arith, its: seq<Item>, js: seq<Item>, lo: Ext, hi: Ext)
    requires AreDraws(fp, its, js, lo, hi)
    ensures var a := Run(fp, its, lo, hi); a.sureCount <= TruthOf(fp, js, lo, hi).count <= a.sureCount + a.maybeCount
  {
    if its != [] {
      var n := |its| - 1;
      PrefixDraws(fp, its, js, lo, hi, n);
      CountsFit(fp, its[..n], js[..n], lo, hi);
      assert IsDraw(fp, its[n], js[n], lo, hi);
      DrawKinds(fp, its[n], js[n], lo, hi);
    }
  }

  lemma {:induction false} PrefixDraws(fp: Arith, its: seq<Item>, js: seq<Item>, lo: Ext, hi: Ext, n: nat)
    requires AreDraws(fp, its, js, lo, hi) && n <= |its|
    ensures AreDraws(fp, its[..n], js[..n], lo, hi)
  {
    forall i | 0 <= i < n ensures IsDraw(fp, its[..n][i], js[..n][i], lo, hi) {
      assert IsDraw(fp, its[i], js[i], lo, hi);
    }
  }

  lemma {:induction false} OneDraw(fp: Arith, its: seq<Item>, zs: seq<Item>, jt: Item, lo: Ext, hi: Ext) returns (js: seq<Item>)
    requires its != [] && AreDraws(fp, its[..|its| - 1], zs, lo, hi) && IsDraw(fp, its[|its| - 1], jt, lo, hi)
    ensures AreDraws(fp, its, js, lo, hi) && js == zs + [jt]
    ensures TruthOf(fp, js, lo, hi) == AddTruth(fp, TruthOf(fp, zs, lo, hi), jt, lo, hi)
  {
    js := zs + [jt];
    assert js[..|js| - 1] == zs;
    forall i | 0 <= i < |its| ensures IsDraw(fp, its[i], js[i], lo, hi) {
      if i < |zs| { assert IsDraw(fp, its[..|its| - 1][i], zs[i], lo, hi); }
    }
  }

  /** All originals are doubles. */
  ghost predicate AreDoubles(fp: Arith, js: seq<Item>) {
    forall i :: 0 <= i < |js| ==> Rep(fp, js[i].orig)
  }

  /** An original that matches exactly if it must or, with most, if it may. */
  lemma {:induction false} CountDraw(fp: Arith, it: Item, lo: Ext, hi: Ext, most: bool) returns (jt: Item)
    requires Binary64(fp) && ValidItem(fp, it, lo, hi) && ValidBounds(fp, lo, hi) && (most ==> lo.Less(hi))
    ensures IsDraw(fp, it, jt, lo, hi) && Rep(fp, jt.orig)
    ensures Matches(jt, lo, hi) <==> IsSure(fp, it, lo, hi) || (most && IsMaybe(fp, it, lo, hi))
  {
    jt := it;
    if IsMaybe(fp, it, lo, hi) {
      if most {
        jt := MatchingDraw(fp, it, lo, hi);
      } else {
        jt := MissingDraw(fp, it, lo, hi);
      }
    } else {
      OriginalIsDraw(fp, it, lo, hi);
      DrawKinds(fp, it, jt, lo, hi);
    }
  }

  /** Sure values, with the maybe ones if most is set. */
  function Reached(sure: nat, maybe: nat, most: bool): nat {
    if most then sure + maybe else sure
  }

  /** Both bounds on the count are reached by doubles, the upper one if the range is not empty. */
  lemma {:induction false} CountIsReached(fp: Arith, its: seq<Item>, lo: Ext, hi: Ext, most: bool) returns (js: seq<Item>)
    requires Binary64(fp) && ValidItems(fp, its, lo, hi) && ValidBounds(fp, lo, hi) && (most ==> lo.Less(hi))
    ensures AreDraws(fp, its, js, lo, hi) && AreDoubles(fp, js)
    ensures var a := Run(fp, its, lo, hi); TruthOf(fp, js, lo, hi).count == Reached(a.sureCount, a.maybeCount, most)
  {
    if its == [] {
      js := [];
    } else {
      var n := |its| - 1;
      assert ValidItem(fp, its[n], lo, hi);
      var zs := CountIsReached(fp, its[..n], lo, hi, most);
      var jt := CountDraw(fp, its[n], lo, hi, most);
      js := OneDraw(fp, its, zs, jt, lo, hi);
      CountStep(fp, Run(fp, its[..n], lo, hi), TruthOf(fp, zs, lo, hi), its[n], jt, lo, hi, most);
    }
  }

  lemma {:induction false} CountStep(fp: Arith, a: Agg, u: Truth, it: Item, jt: Item, lo: Ext, hi: Ext, most: bool)
    requires u.count == Reached(a.sureCount, a.maybeCount, most)
    requires Matches(jt, lo, hi) <==> IsSure(fp, it, lo, hi) || (most && IsMaybe(fp, it, lo, hi))
    ensures var b := AddItem(fp, a, it, lo, hi); AddTruth(fp, u, jt, lo, hi).count == Reached(b.sureCount, b.maybeCount, most)
  {
  }

  /** Possible originals of every read. */
  ghost predicate AllDraws(fp: Arith, groups: seq<seq<Item>>, gs: seq<seq<Item>>, lo: Ext, hi: Ext) {
    |gs| == |groups| && forall i {:trigger AreDraws(fp, groups[i], gs[i], lo, hi)} :: 0 <= i < |groups| ==> AreDraws(fp, groups[i], gs[i], lo, hi)
  }

  ghost predicate AllDoubles(fp: Arith, gs: seq<seq<Item>>) {
    forall i {:trigger AreDoubles(fp, gs[i])} :: 0 <= i < |gs| ==> AreDoubles(fp, gs[i])
  }

  lemma {:induction false} OneGroup(fp: Arith, groups: seq<seq<Item>>, zs: seq<seq<Item>>, js: seq<Item>, lo: Ext, hi: Ext) returns (gs: seq<seq<Item>>)
    requires groups != [] && AllDraws(fp, groups[..|groups| - 1], zs, lo, hi) && AreDraws(fp, groups[|groups| - 1], js, lo, hi)
    ensures AllDraws(fp, groups, gs, lo, hi) && gs == zs + [js]
    ensures TruthOfAll(fp, gs, lo, hi) == JoinTruth(TruthOfAll(fp, zs, lo, hi), TruthOf(fp, js, lo, hi))
  {
    gs := zs + [js];
    assert gs[..|gs| - 1] == zs;
    forall i | 0 <= i < |groups| ensures AreDraws(fp, groups[i], gs[i], lo, hi) {
      if i < |zs| { assert AreDraws(fp, groups[..|groups| - 1][i], zs[i], lo, hi); }
    }
  }

  /** The sure and the maybe values of all reads. */
  function TallyReached(fp: Arith, parts: seq<Part>, vpb: nat, most: bool): nat {
    var t := TallyOf(fp, parts, vpb);
    Reached(t.sure, t.maybe, most)
  }

  lemma {:induction false} TallyReachedStep(fp: Arith, parts: seq<Part>, vpb: nat, most: bool)
    requires parts != []
    ensures var (n, p) := (|parts| - 1, parts[|parts| - 1]);
            TallyReached(fp, parts, vpb, most) == TallyReached(fp, parts[..n], vpb, most) + Reached(p.agg.sureCount, p.agg.maybeCount, most)
  {
  }

  lemma {:induction false} TallyCount(fp: Arith, parts: seq<Part>, groups: seq<seq<Item>>, vpb: nat, lo: Ext, hi: Ext, most: bool) returns (gs: seq<seq<Item>>)
    requires Binary64(fp) && ValidBounds(fp, lo, hi) && ValidParts(fp, parts, groups, vpb, lo, hi) && (most ==> lo.Less(hi))
    ensures AllDraws(fp, groups, gs, lo, hi) && AllDoubles(fp, gs)
    ensures TruthOfAll(fp, gs, lo, hi).count == TallyReached(fp, parts, vpb, most)
  {
    if parts == [] {
      gs := [];
    } else {
      var n := |parts| - 1;
      assert ValidPart(fp, parts[n], groups[n], vpb, lo, hi);
      var zs := TallyCount(fp, parts[..n], groups[..n], vpb, lo, hi, most);
      var js := CountIsReached(fp, groups[n], lo, hi, most);
      gs := OneGroup(fp, groups, zs, js, lo, hi);
      TallyReachedStep(fp, parts, vpb, most);
    }
  }

  /** No possible originals have a smaller count than countLow, and some have it. */
  lemma {:induction false} CountLowIsReached(fp: Arith, parts: seq<Part>, groups: seq<seq<Item>>, vpb: nat, lo: Ext, hi: Ext) returns (gs: seq<seq<Item>>)
    requires Binary64(fp) && ValidBounds(fp, lo, hi) && ValidParts(fp, parts, groups, vpb, lo, hi)
    ensures AllDraws(fp, groups, gs, lo, hi) && AllDoubles(fp, gs) && TruthOfAll(fp, gs, lo, hi).count == Combine(fp, parts, vpb).countLow
  {
    gs := TallyCount(fp, parts, groups, vpb, lo, hi, false);
  }

  /** And some have a count of countHigh, if the range is not empty. */
  lemma {:induction false} CountHighIsReached(fp: Arith, parts: seq<Part>, groups: seq<seq<Item>>, vpb: nat, lo: Ext, hi: Ext) returns (gs: seq<seq<Item>>)
    requires Binary64(fp) && ValidBounds(fp, lo, hi) && ValidParts(fp, parts, groups, vpb, lo, hi) && lo.Less(hi)
    ensures AllDraws(fp, groups, gs, lo, hi) && AllDoubles(fp, gs) && TruthOfAll(fp, gs, lo, hi).count == Combine(fp, parts, vpb).countHigh
  {
    gs := TallyCount(fp, parts, groups, vpb, lo, hi, true);
  }

  // ---- the exact ends of the sum ----

  /** What an original adds to the sum. */
  function Adds(it: Item, lo: Ext, hi: Ext): real {
    if Matches(it, lo, hi) then it.orig else 0.0
  }

  /** The exact sum of the lower or of the mirrored upper ends of a read. */
  function EndSum(fp: Arith, its: seq<Item>, lo: Ext, hi: Ext, low: bool): real {
    var e := Totals(Terms(fp, its, lo, hi, low));
    e.sure + e.maybe
  }

  lemma {:induction false} EndSumStep(fp: Arith, its: seq<Item>, lo: Ext, hi: Ext, low: bool)
    requires its != []
    ensures var (n, it) := (|its| - 1, its[|its| - 1]);
            EndSum(fp, its, lo, hi, low)
            == EndSum(fp, its[..n], lo, hi, low) + (if low then LowTerm(fp, it, lo, hi) else HighTerm(fp, it, lo, hi)).x
  {
    TermsStep(fp, its, lo, hi, low);
    SkipAddsNothing(fp, its[|its| - 1], lo, hi);
  }

  lemma {:induction false} SkipAddsNothing(fp: Arith, it: Item, lo: Ext, hi: Ext)
    ensures LowTerm(fp, it, lo, hi).kind == Skip ==> LowTerm(fp, it, lo, hi).x == 0.0
    ensures HighTerm(fp, it, lo, hi).kind == Skip ==> HighTerm(fp, it, lo, hi).x == 0.0
  {
  }

  /** Every possible original adds at least the lower and at most the upper end... */
  lemma {:induction false} DrawAdds(fp: Arith, it: Item, jt: Item, lo: Ext, hi: Ext)
    requires IsDraw(fp, it, jt, lo, hi)
    ensures LowTerm(fp, it, lo, hi).x <= Adds(jt, lo, hi) <= -HighTerm(fp, it, lo, hi).x
  {
    DrawKinds(fp, it, jt, lo, hi);
  }

  /** ...one comes within d of the lower one... */
  lemma {:induction false} LowDraw(fp: Arith, it: Item, lo: Ext, hi: Ext, d: real) returns (jt: Item)
    requires Binary64(fp) && ValidItem(fp, it, lo, hi) && ValidBounds(fp, lo, hi) && lo.Less(hi) && d > 0.0
    ensures IsDraw(fp, it, jt, lo, hi) && Adds(jt, lo, hi) <= LowTerm(fp, it, lo, hi).x + d
  {
    EndsEnclose(fp, it, lo, hi);
    jt := it;
    if IsSure(fp, it, lo, hi) || (IsMaybe(fp, it, lo, hi) && LowEnd(fp, it, lo) < 0.0) {
      var o := LowestMatch(lo, hi, Least(fp, it), Most(fp, it), d);
      jt := it.(orig := o);
    } else if IsMaybe(fp, it, lo, hi) {
      jt := MissingDraw(fp, it, lo, hi);
    }
  }

  lemma {:induction false} LowestMatch(lo: Ext, hi: Ext, a: real, b: real, d: real) returns (o: real)
    requires lo.Less(hi) && a <= b && lo.Less(Fin(b)) && Fin(a).AtMost(hi) && d > 0.0
    ensures a <= o <= b && InRange(Fin(o), lo, hi) && o <= Larger(a, lo) + d
  {
    if lo.Less(Fin(a)) {
      o := a;
    } else {
      var top := Smaller(b, hi);
      o := if lo.r + d < top then lo.r + d else top;
    }
  }

  /** ...and one adds the upper one. */
  lemma {:induction false} HighDraw(fp: Arith, it: Item, lo: Ext, hi: Ext) returns (jt: Item)
    requires Binary64(fp) && ValidItem(fp, it, lo, hi) && ValidBounds(fp, lo, hi) && lo.Less(hi)
    ensures IsDraw(fp, it, jt, lo, hi) && Adds(jt, lo, hi) == -HighTerm(fp, it, lo, hi).x
  {
    EndsEnclose(fp, it, lo, hi);
    jt := it;
    if IsSure(fp, it, lo, hi) || (IsMaybe(fp, it, lo, hi) && HighEnd(fp, it, hi) > 0.0) {
      jt := it.(orig := HighEnd(fp, it, hi));
    } else if IsMaybe(fp, it, lo, hi) {
      jt := MissingDraw(fp, it, lo, hi);
    }
  }

  lemma {:induction false} SumsFit(fp: Arith, its: seq<Item>, js: seq<Item>, lo: Ext, hi: Ext)
    requires AreDraws(fp, its, js, lo, hi)
    ensures EndSum(fp, its, lo, hi, true) <= TruthOf(fp, js, lo, hi).sum <= -EndSum(fp, its, lo, hi, false)
  {
    if its != [] {
      var n := |its| - 1;
      PrefixDraws(fp, its, js, lo, hi, n);
      SumsFit(fp, its[..n], js[..n], lo, hi);
      assert IsDraw(fp, its[n], js[n], lo, hi);
      DrawAdds(fp, its[n], js[n], lo, hi);
      EndSumStep(fp, its, lo, hi, true);
      EndSumStep(fp, its, lo, hi, false);
    }
  }

  /** The lower end of a read's sum, up to d for each value. */
  lemma {:induction false} LowSumIsApproached(fp: Arith, its: seq<Item>, lo: Ext, hi: Ext, d: real) returns (js: seq<Item>)
    requires Binary64(fp) && ValidItems(fp, its, lo, hi) && ValidBounds(fp, lo, hi) && lo.Less(hi) && d > 0.0
    ensures AreDraws(fp, its, js, lo, hi) && Approaches(TruthOf(fp, js, lo, hi).sum, EndSum(fp, its, lo, hi, true), |its|, d)
  {
    if its == [] {
      js := [];
    } else {
      var n := |its| - 1;
      assert ValidItem(fp, its[n], lo, hi);
      var zs := LowSumIsApproached(fp, its[..n], lo, hi, d);
      var jt := LowDraw(fp, its[n], lo, hi, d);
      js := OneDraw(fp, its, zs, jt, lo, hi);
      EndSumStep(fp, its, lo, hi, true);
    }
  }

  lemma {:induction false} HighSumIsReached(fp: Arith, its: seq<Item>, lo: Ext, hi: Ext) returns (js: seq<Item>)
    requires Binary64(fp) && ValidItems(fp, its, lo, hi) && ValidBounds(fp, lo, hi) && lo.Less(hi)
    ensures AreDraws(fp, its, js, lo, hi) && TruthOf(fp, js, lo, hi).sum == -EndSum(fp, its, lo, hi, false)
  {
    if its == [] {
      js := [];
    } else {
      var n := |its| - 1;
      assert ValidItem(fp, its[n], lo, hi);
      var zs := HighSumIsReached(fp, its[..n], lo, hi);
      var jt := HighDraw(fp, its[n], lo, hi);
      js := OneDraw(fp, its, zs, jt, lo, hi);
      EndSumStep(fp, its, lo, hi, false);
    }
  }

  /** The exact sum of the ends of all reads. */
  function EndSums(fp: Arith, groups: seq<seq<Item>>, lo: Ext, hi: Ext, low: bool): real {
    if groups == [] then 0.0
    else EndSums(fp, groups[..|groups| - 1], lo, hi, low) + EndSum(fp, groups[|groups| - 1], lo, hi, low)
  }

  ghost predicate AllValid(fp: Arith, groups: seq<seq<Item>>, lo: Ext, hi: Ext) {
    forall i {:trigger ValidItems(fp, groups[i], lo, hi)} :: 0 <= i < |groups| ==> ValidItems(fp, groups[i], lo, hi)
  }

  /** The number of values in all reads. */
  function Values(groups: seq<seq<Item>>): nat {
    if groups == [] then 0 else Values(groups[..|groups| - 1]) + |groups[|groups| - 1]|
  }

  /** No possible originals of the reads add up to less than the lower ends or to more than
    * the upper ends do. */
  lemma {:induction false} AllSumsFit(fp: Arith, groups: seq<seq<Item>>, gs: seq<seq<Item>>, lo: Ext, hi: Ext)
    requires AllDraws(fp, groups, gs, lo, hi)
    ensures EndSums(fp, groups, lo, hi, true) <= TruthOfAll(fp, gs, lo, hi).sum <= -EndSums(fp, groups, lo, hi, false)
  {
    if groups != [] {
      var n := |groups| - 1;
      assert AllDraws(fp, groups[..n], gs[..n], lo, hi) by {
        forall i | 0 <= i < n ensures AreDraws(fp, groups[..n][i], gs[..n][i], lo, hi) {
          assert AreDraws(fp, groups[i], gs[i], lo, hi);
        }
      }
      AllSumsFit(fp, groups[..n], gs[..n], lo, hi);
      assert AreDraws(fp, groups[n], gs[n], lo, hi);
      SumsFit(fp, groups[n], gs[n], lo, hi);
    }
  }

  /** n values add up to at most d for each of them more than end. */
  ghost predicate Approaches(sum: real, end: real, n: nat, d: real) {
    sum <= end + Times(n, d)
  }

  /** Some come within any d of the lower ends, for d > 0 for each of their values... */
  lemma {:induction false} LowSumsAreApproached(fp: Arith, groups: seq<seq<Item>>, lo: Ext, hi: Ext, d: real) returns (gs: seq<seq<Item>>)
    requires Binary64(fp) && AllValid(fp, groups, lo, hi) && ValidBounds(fp, lo, hi) && lo.Less(hi) && d > 0.0
    ensures AllDraws(fp, groups, gs, lo, hi) && SumsApproach(fp, groups, gs, lo, hi, d)
  {
    if groups == [] {
      gs := [];
    } else {
      var n := |groups| - 1;
      FrontIsValid(fp, groups, groups[..n], lo, hi);
      var zs := LowSumsAreApproached(fp, groups[..n], lo, hi, d);
      gs := LowSumsNext(fp, groups, groups[..n], zs, lo, hi, d);
    }
  }

  ghost predicate SumsApproach(fp: Arith, groups: seq<seq<Item>>, gs: seq<seq<Item>>, lo: Ext, hi: Ext, d: real) {
    Approaches(TruthOfAll(fp, gs, lo, hi).sum, EndSums(fp, groups, lo, hi, true), Values(groups), d)
  }

  lemma {:induction false} FrontIsValid(fp: Arith, groups: seq<seq<Item>>, front: seq<seq<Item>>, lo: Ext, hi: Ext)
    requires AllValid(fp, groups, lo, hi) && groups != [] && front == groups[..|groups| - 1]
    ensures AllValid(fp, front, lo, hi) && ValidItems(fp, groups[|groups| - 1], lo, hi)
  {
    assert ValidItems(fp, groups[|groups| - 1], lo, hi);
    forall i | 0 <= i < |front| ensures ValidItems(fp, front[i], lo, hi) {
      assert ValidItems(fp, groups[i], lo, hi);
    }
  }

  lemma {:induction false} EndsOfAll(fp: Arith, groups: seq<seq<Item>>, front: seq<seq<Item>>, lo: Ext, hi: Ext, low: bool)
    requires groups != [] && front == groups[..|groups| - 1]
    ensures EndSums(fp, groups, lo, hi, low) == EndSums(fp, front, lo, hi, low) + EndSum(fp, groups[|groups| - 1], lo, hi, low)
    ensures Values(groups) == Values(front) + |groups[|groups| - 1]|
  {
  }

  lemma {:induction false} LowSumsNext(fp: Arith, groups: seq<seq<Item>>, front: seq<seq<Item>>, zs: seq<seq<Item>>, lo: Ext, hi: Ext, d: real)
    returns (gs: seq<seq<Item>>)
    requires Binary64(fp) && ValidBounds(fp, lo, hi) && lo.Less(hi) && d > 0.0 && groups != [] && ValidItems(fp, groups[|groups| - 1], lo, hi)
    requires front == groups[..|groups| - 1] && AllDraws(fp, front, zs, lo, hi) && SumsApproach(fp, front, zs, lo, hi, d)
    ensures AllDraws(fp, groups, gs, lo, hi) && SumsApproach(fp, groups, gs, lo, hi, d)
  {
    var last := groups[|groups| - 1];
    var js := LowSumIsApproached(fp, last, lo, hi, d);
    gs := OneGroup(fp, groups, zs, js, lo, hi);
    EndsOfAll(fp, groups, front, lo, hi, true);
    SumsNext(TruthOfAll(fp, gs, lo, hi).sum, EndSums(fp, groups, lo, hi, true), Values(groups),
             TruthOfAll(fp, zs, lo, hi).sum, EndSums(fp, front, lo, hi, true), Values(front),
             TruthOf(fp, js, lo, hi).sum, EndSum(fp, last, lo, hi, true), |last|, d);
  }

  lemma {:induction false} SumsNext(sum: real, end: real, n: nat, s: real, e: real, j: nat, t: real, f: real, k: nat, d: real)
    requires sum == s + t && end == e + f && n == j + k && Approaches(s, e, j, d) && Approaches(t, f, k, d)
    ensures Approaches(sum, end, n, d)
  {
    TimesBoth(j, k, d);
  }

  /** ...and some reach the upper ones. */
  lemma {:induction false} HighSumsAreReached(fp: Arith, groups: seq<seq<Item>>, lo: Ext, hi: Ext) returns (gs: seq<seq<Item>>)
    requires Binary64(fp) && AllValid(fp, groups, lo, hi) && ValidBounds(fp, lo, hi) && lo.Less(hi)
    ensures AllDraws(fp, groups, gs, lo, hi) && TruthOfAll(fp, gs, lo, hi).sum == -EndSums(fp, groups, lo, hi, false)
  {
    if groups == [] {
      gs := [];
    } else {
      var n := |groups| - 1;
      FrontIsValid(fp, groups, groups[..n], lo, hi);
      var zs := HighSumsAreReached(fp, groups[..n], lo, hi);
      var js := HighSumIsReached(fp, groups[n], lo, hi);
      gs := OneGroup(fp, groups, zs, js, lo, hi);
    }
  }
}
