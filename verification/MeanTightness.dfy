/** How tight the ends of the mean are: next to the formula of combine() in exact arithmetic,
  * with the exact sum of the sure ends and the exact extreme of the maybe ends. */
module MeanTightness {
  import opened Rounding
  import opened Summation
  import opened Slack
  import opened FloatBounds
  import opened DoubleBounds
  import opened Aggregate
  import opened Intervals
  import opened Attained
  import opened Tightness
  import Ieee

  // ---- the extremes of the maybe ends ----

  /** The lower ends of the maybe values, or their mirrored upper ends. */
  function MaybeEnds(fp: Arith, its: seq<Item>, lo: Ext, hi: Ext, low: bool): seq<real> {
    if its == [] then []
    else
      var it := its[|its| - 1];
      var front := MaybeEnds(fp, its[..|its| - 1], lo, hi, low);
      if !IsSure(fp, it, lo, hi) && IsMaybe(fp, it, lo, hi) then front + [if low then LowEnd(fp, it, lo) else -HighEnd(fp, it, hi)] else front
  }

  function AllMaybeEnds(fp: Arith, groups: seq<seq<Item>>, lo: Ext, hi: Ext, low: bool): seq<real> {
    if groups == [] then []
    else AllMaybeEnds(fp, groups[..|groups| - 1], lo, hi, low) + MaybeEnds(fp, groups[|groups| - 1], lo, hi, low)
  }

  /** m is the least of v, or +inf if there are none. */
  ghost predicate IsLeastOf(v: seq<real>, m: Ext) {
    if v == [] then m == PosInf else m.Fin? && m.r in v && forall i :: 0 <= i < |v| ==> m.r <= v[i]
  }

  function Mirrored(x: Ext): Ext {
    match x
    case NegInf => PosInf
    case Fin(r) => Fin(-r)
    case PosInf => NegInf
  }

  lemma {:induction false} LeastOfMore(v: seq<real>, m: Ext, x: real)
    requires IsLeastOf(v, m)
    ensures IsLeastOf(v + [x], if Fin(x).Less(m) then Fin(x) else m)
  {
    var w := v + [x];
    assert w[|v|] == x;
    if v != [] {
      var i :| 0 <= i < |v| && v[i] == m.r;
      assert w[i] == m.r;
    }
  }

  lemma {:induction false} LeastOfBoth(v: seq<real>, m: Ext, w: seq<real>, n: Ext)
    requires IsLeastOf(v, m) && IsLeastOf(w, n)
    ensures IsLeastOf(v + w, if n.Less(m) then n else m)
  {
    if v != [] {
      var i :| 0 <= i < |v| && v[i] == m.r;
      assert (v + w)[i] == m.r;
    }
    if w != [] {
      var i :| 0 <= i < |w| && w[i] == n.r;
      assert (v + w)[|v| + i] == n.r;
    }
  }

  /** The running extremes of a read are those of its maybe ends. */
  lemma {:induction false} RunExtremes(fp: Arith, its: seq<Item>, lo: Ext, hi: Ext)
    ensures HasExtremes(Run(fp, its, lo, hi), MaybeEnds(fp, its, lo, hi, true), MaybeEnds(fp, its, lo, hi, false))
  {
    if its != [] {
      var n := |its| - 1;
      RunExtremes(fp, its[..n], lo, hi);
      ExtremesStep(fp, Run(fp, its[..n], lo, hi), its[n], lo, hi, MaybeEnds(fp, its[..n], lo, hi, true), MaybeEnds(fp, its[..n], lo, hi, false));
    }
  }

  ghost predicate HasExtremes(a: Agg, lows: seq<real>, highs: seq<real>) {
    IsLeastOf(lows, a.maybeMin) && IsLeastOf(highs, Mirrored(a.maybeMax)) && |lows| == |highs| == a.maybeCount
  }

  lemma {:induction false} ExtremesStep(fp: Arith, a: Agg, it: Item, lo: Ext, hi: Ext, lows: seq<real>, highs: seq<real>)
    requires HasExtremes(a, lows, highs)
    ensures if !IsSure(fp, it, lo, hi) && IsMaybe(fp, it, lo, hi)
            then HasExtremes(AddItem(fp, a, it, lo, hi), lows + [LowEnd(fp, it, lo)], highs + [-HighEnd(fp, it, hi)])
            else HasExtremes(AddItem(fp, a, it, lo, hi), lows, highs)
  {
    LeastOfMore(lows, a.maybeMin, LowEnd(fp, it, lo));
    LeastOfMore(highs, Mirrored(a.maybeMax), -HighEnd(fp, it, hi));
  }

  /** So are those of all reads. */
  lemma {:induction false} TallyExtremes(fp: Arith, parts: seq<Part>, groups: seq<seq<Item>>, vpb: nat, lo: Ext, hi: Ext)
    requires ValidParts(fp, parts, groups, vpb, lo, hi)
    ensures TallyHasExtremes(TallyOf(fp, parts, vpb), AllMaybeEnds(fp, groups, lo, hi, true), AllMaybeEnds(fp, groups, lo, hi, false))
  {
    if parts != [] {
      var n := |parts| - 1;
      assert ValidPart(fp, parts[n], groups[n], vpb, lo, hi);
      TallyExtremes(fp, parts[..n], groups[..n], vpb, lo, hi);
      RunExtremes(fp, groups[n], lo, hi);
      TallyStepExtremes(fp, TallyOf(fp, parts[..n], vpb), parts[n], vpb, AllMaybeEnds(fp, groups[..n], lo, hi, true), AllMaybeEnds(fp, groups[..n], lo, hi, false),
                        MaybeEnds(fp, groups[n], lo, hi, true), MaybeEnds(fp, groups[n], lo, hi, false));
    }
  }

  ghost predicate TallyHasExtremes(t: Tally, lows: seq<real>, highs: seq<real>) {
    IsLeastOf(lows, t.least) && IsLeastOf(highs, Mirrored(t.greatest)) && |lows| == |highs| == t.maybe
  }

  lemma {:induction false} TallyStepExtremes(fp: Arith, t: Tally, p: Part, vpb: nat, lows: seq<real>, highs: seq<real>, v: seq<real>, w: seq<real>)
    requires TallyHasExtremes(t, lows, highs) && HasExtremes(p.agg, v, w)
    ensures TallyHasExtremes(AddPart(fp, t, p, vpb), lows + v, highs + w)
  {
    LeastOfBoth(lows, t.least, v, p.agg.maybeMin);
    LeastOfBoth(highs, Mirrored(t.greatest), w, Mirrored(p.agg.maybeMax));
  }

  // ---- the quotients ----

  /** A double whose successor is at most the exact quotient is at most the returned one. */
  lemma {:induction false} QuotientIsTight(fp: Arith, x: real, n: nat, z: real)
    requires Binary64(fp) && 0 < n <= INT_MAX && Rep(fp, z) && Product(Up(fp, z), n as real) <= x
    ensures z <= QuotientDown(fp, x, n)
  {
    IntIsRep(fp, n);
    UpIsRep(fp, z);
    AtLeastQuotient(x, n, Up(fp, z));
    AboveDouble(fp, Up(fp, z), x / n as real);
    assert Ask(fp.rnd(x / n as real), z);
  }

  /** A number of maybe values times the least of them, rounded and stepped down. */
  lemma {:induction false} ProductIsNear(fp: Arith, m: nat, least: real, p: real, d: real)
    requires Ieee.IsIeee(fp) && m <= INT_MAX && Rep(fp, least) && p == Product(m as real, least) && d == fp.down(fp.rnd(p))
    ensures (p - d) * 4503599627370496.0 <= 2.0 * Abs(p) + fp.quantum * 4503599627370496.0 && d <= p && Rep(fp, d)
  {
    Ieee.IeeeIsBinary64(fp);
    TimesOfRep(fp, m, least);
    MultipleError(fp, p);
    RoundedIsRep(fp, p);
    Ieee.StepIsSmall(fp, fp.rnd(p));
    DownIsBelow(fp, p);
    assert Ask(fp.rnd(p), 0.0);
    NearStep(p, fp.rnd(p), d, fp.quantum);
  }

  lemma {:induction false} NearStep(p: real, r: real, d: real, q: real)
    requires Near(r, p) && (r - d) * 4503599627370496.0 <= Abs(r) + q * 4503599627370496.0
    ensures (p - d) * 4503599627370496.0 <= 2.0 * Abs(p) + q * 4503599627370496.0
  {
  }

  lemma {:induction false} TimesOfRep(fp: Arith, m: nat, x: real)
    requires Binary64(fp) && Rep(fp, x)
    ensures Multiple(fp, Product(m as real, x))
  {
    RepIsMultiple(fp, x);
    var i: int :| IsTimes(i, fp.quantum, x);
    assert m as real * (i as real * fp.quantum) == (m * i) as real * fp.quantum;
    assert IsTimes(m * i, fp.quantum, Product(m as real, x));
  }

  /** The sum of both, rounded and stepped down. */
  lemma {:induction false} TotalIsNear(fp: Arith, s: real, m: nat, least: real, p: real, x: real)
    requires Ieee.IsIeee(fp) && m <= INT_MAX && Rep(fp, least) && Rep(fp, s) && p == Product(m as real, least)
    requires x == fp.down(fp.rnd(s + fp.down(fp.rnd(p))))
    ensures (s + p - x) * 4503599627370496.0 <= 2.0 * Abs(s) + 5.0 * Abs(p) + 3.0 * (fp.quantum * 4503599627370496.0)
  {
    Ieee.IeeeIsBinary64(fp);
    var d := fp.down(fp.rnd(p));
    ProductIsNear(fp, m, least, p, d);
    SumError(fp, s, d);
    RoundedIsRep(fp, s + d);
    Ieee.StepIsSmall(fp, fp.rnd(s + d));
    NearStep(s + d, fp.rnd(s + d), x, fp.quantum);
    TotalArithmetic(s, p, d, x, fp.quantum);
  }

  lemma {:induction false} TotalArithmetic(s: real, p: real, d: real, x: real, q: real)
    requires q > 0.0 && d <= p && (p - d) * 4503599627370496.0 <= 2.0 * Abs(p) + q * 4503599627370496.0
    requires (s + d - x) * 4503599627370496.0 <= 2.0 * Abs(s + d) + q * 4503599627370496.0
    ensures (s + p - x) * 4503599627370496.0 <= 2.0 * Abs(s) + 5.0 * Abs(p) + 3.0 * (q * 4503599627370496.0)
  {
    assert Abs(s + d) <= Abs(s) + Abs(p) + (p - d);
  }

  // ---- the lower end ----

  /** What is lost of the sum with all maybe values at their least, p, in units of 2^-53: twice
    * the width, a few roundings of p, and three quanta. */
  ghost function AllMaybeWidth(width: real, p: real, quantum: real): real {
    2.0 * width + 10.0 * Abs(p) + 6.0 * (quantum * 4503599627370496.0)
  }

  /** z's successor times n is at most an exact sum, less a width. */
  ghost predicate IsBelow(fp: Arith, z: real, n: nat, sum: real, width: real) {
    Product(Up(fp, z), n as real) * 9007199254740992.0 + width <= sum * 9007199254740992.0
  }

  /** z lies below both means in exact arithmetic. */
  ghost predicate IsBelowMeans(fp: Arith, z: real, sure: real, s: nat, m: nat, least: real, width: real) {
    && IsBelow(fp, z, s, sure, width)
    && (m > 0 ==> var p := Product(m as real, least); IsBelow(fp, z, s + m, sure + p, AllMaybeWidth(width, p, fp.quantum)))
  }

  lemma {:induction false} SureMeanIsTight(fp: Arith, j: Joined, x: real, all: real, sure: real, width: real, s: nat, z: real)
    requires Binary64(fp) && JoinCovered(fp, j) && JoinTight(j, all, sure, width) && x == fp.rnd(fp.rnd(j.sure) - fp.rnd(j.slack))
    requires 0 < s <= INT_MAX && Rep(fp, z) && IsBelow(fp, z, s, sure, width)
    ensures z <= QuotientDown(fp, x, s)
  {
    RoundingIsSmall(fp, j, x, fp.rnd(x + fp.rnd(j.maybe)));
    SureArithmetic(j, x, all, sure, width, Product(Up(fp, z), s as real));
    QuotientIsTight(fp, x, s, z);
  }

  lemma {:induction false} SureArithmetic(j: Joined, x: real, all: real, sure: real, width: real, zn: real)
    requires JoinTight(j, all, sure, width) && (j.sure - j.slack - x) * 9007199254740992.0 <= 4.0 * j.bound && 0.0 <= j.bound
    requires zn * 9007199254740992.0 + width <= sure * 9007199254740992.0
    ensures zn <= x
  {
  }

  lemma {:induction false} AllMaybeIsTight(fp: Arith, j: Joined, x: real, all: real, sure: real, width: real, s: nat, m: nat, least: real, p: real, z: real)
    requires Ieee.IsIeee(fp) && JoinCovered(fp, j) && JoinTight(j, all, sure, width) && x == fp.rnd(fp.rnd(j.sure) - fp.rnd(j.slack))
    requires 0 < s && s + m <= INT_MAX && Rep(fp, z) && Rep(fp, least) && p == Product(m as real, least)
    requires IsBelow(fp, z, s + m, sure + p, AllMaybeWidth(width, p, fp.quantum))
    ensures z <= AllMaybeLow(fp, x, s, m, least)
  {
    Ieee.IeeeIsBinary64(fp);
    IntIsRep(fp, m);
    var y := fp.down(fp.rnd(x + fp.down(fp.rnd(p))));
    AllMaybeIsAbove(fp, j, x, all, sure, width, m, least, p, y, Product(Up(fp, z), (s + m) as real));
    QuotientIsTight(fp, y, s + m, z);
  }

  lemma {:induction false} AllMaybeIsAbove(fp: Arith, j: Joined, x: real, all: real, sure: real, width: real, m: nat, least: real, p: real, y: real, zn: real)
    requires Ieee.IsIeee(fp) && Binary64(fp) && JoinCovered(fp, j) && JoinTight(j, all, sure, width) && x == fp.rnd(fp.rnd(j.sure) - fp.rnd(j.slack))
    requires m <= INT_MAX && Rep(fp, least) && p == Product(m as real, least) && y == fp.down(fp.rnd(x + fp.down(fp.rnd(p))))
    requires zn * 9007199254740992.0 + AllMaybeWidth(width, p, fp.quantum) <= (sure + p) * 9007199254740992.0
    ensures zn <= y
  {
    RoundingIsSmall(fp, j, x, fp.rnd(x + fp.rnd(j.maybe)));
    RoundedIsRep(fp, fp.rnd(j.sure) - fp.rnd(j.slack));
    TotalIsNear(fp, x, m, least, p, y);
    AllMaybeArithmetic(j, x, y, p, all, sure, width, fp.quantum, zn);
  }

  lemma {:induction false} AllMaybeArithmetic(j: Joined, x: real, y: real, p: real, all: real, sure: real, width: real, q: real, zn: real)
    requires JoinTight(j, all, sure, width) && (j.sure - j.slack - x) * 9007199254740992.0 <= 4.0 * j.bound && Abs(x) <= 2.0 * j.bound && 0.0 <= j.bound
    requires (x + p - y) * 4503599627370496.0 <= 2.0 * Abs(x) + 5.0 * Abs(p) + 3.0 * (q * 4503599627370496.0)
    requires zn * 9007199254740992.0 + AllMaybeWidth(width, p, q) <= (sure + p) * 9007199254740992.0
    ensures zn <= y
  {
  }

  lemma {:induction false} LowMeanIsTight(fp: Arith, j: Joined, x: real, all: real, sure: real, width: real, s: nat, m: nat, least: real, z: real)
    requires Ieee.IsIeee(fp) && JoinCovered(fp, j) && JoinTight(j, all, sure, width) && x == fp.rnd(fp.rnd(j.sure) - fp.rnd(j.slack))
    requires 0 < s && s + m <= INT_MAX && Rep(fp, z) && (m > 0 ==> Rep(fp, least)) && IsBelowMeans(fp, z, sure, s, m, least, width)
    ensures z <= QuotientDown(fp, x, s) && (m > 0 ==> z <= AllMaybeLow(fp, x, s, m, least))
  {
    Ieee.IeeeIsBinary64(fp);
    SureMeanIsTight(fp, j, x, all, sure, width, s, z);
    if m > 0 {
      AllMaybeIsTight(fp, j, x, all, sure, width, s, m, least, Product(m as real, least), z);
    }
  }

  // ---- the answer ----

  /** The mean's lower end, of at least one listed value: below the exact means, less their
    * widths, there is no double above it; without sure values it is the least maybe end. */
  ghost predicate LowMeanTight(fp: Arith, t: Tally, sure: real, width: real, z: real) {
    && (t.sure > 0 && IsBelowMeans(fp, z, sure, t.sure, t.maybe, Value(t.least), width) ==>
          AnswerOf(fp, t).mean.MeanBounds? && Fin(z).AtMost(AnswerOf(fp, t).mean.low))
    && (t.sure == 0 < t.maybe ==> AnswerOf(fp, t).mean.MeanBounds? && AnswerOf(fp, t).mean.low == t.least)
  }

  /** The upper end is its mirror image. */
  ghost predicate HighMeanTight(fp: Arith, t: Tally, sure: real, width: real, z: real) {
    && (t.sure > 0 && IsBelowMeans(fp, -z, sure, t.sure, t.maybe, -Value(t.greatest), width) ==>
          AnswerOf(fp, t).mean.MeanBounds? && AnswerOf(fp, t).mean.high.AtMost(Fin(z)))
    && (t.sure == 0 < t.maybe ==> AnswerOf(fp, t).mean.MeanBounds? && AnswerOf(fp, t).mean.high == t.greatest)
  }

  lemma {:induction false} TallyLowMean(fp: Arith, t: Tally, u: Truth, l: Joined, h: Joined, all: real, sure: real, width: real, z: real)
    requires Ieee.IsIeee(fp) && JoinCovered(fp, l) && TallyAgrees(t, u, l, h) && JoinTight(l, all, sure, width)
    requires t.sure + t.maybe <= INT_MAX && Rep(fp, z) && (t.maybe > 0 ==> Rep(fp, Value(t.least)))
    ensures LowMeanTight(fp, t, sure, width, z)
  {
    if t.sure > 0 && IsBelowMeans(fp, z, sure, t.sure, t.maybe, Value(t.least), width) {
      LowMeanIsTight(fp, l, SureLow(fp, t), all, sure, width, t.sure, t.maybe, Value(t.least), z);
    }
  }

  lemma {:induction false} TallyHighMean(fp: Arith, t: Tally, u: Truth, l: Joined, h: Joined, all: real, sure: real, width: real, z: real)
    requires Ieee.IsIeee(fp) && JoinCovered(fp, h) && TallyAgrees(t, u, l, h) && JoinTight(h, all, sure, width)
    requires t.sure + t.maybe <= INT_MAX && Rep(fp, z) && (t.maybe > 0 ==> Rep(fp, -Value(t.greatest)))
    ensures HighMeanTight(fp, t, sure, width, z)
  {
    if t.sure > 0 && IsBelowMeans(fp, -z, sure, t.sure, t.maybe, -Value(t.greatest), width) {
      Ieee.IeeeIsBinary64(fp);
      SureHighMirrors(fp, t, h);
      NegatedIsRep(fp, z);
      LowMeanIsTight(fp, h, -SureHigh(fp, t), all, sure, width, t.sure, t.maybe, -Value(t.greatest), -z);
      QuotientMirrors(fp, SureHigh(fp, t), t.sure);
      if t.maybe > 0 {
        AllMaybeMirrors(fp, SureHigh(fp, t), t.sure, t.maybe, Value(t.greatest));
      }
    }
  }

  lemma {:induction false} PartsAreValid(fp: Arith, parts: seq<Part>, groups: seq<seq<Item>>, vpb: nat, lo: Ext, hi: Ext)
    requires ValidParts(fp, parts, groups, vpb, lo, hi)
    ensures AllValid(fp, groups, lo, hi)
  {
    forall i | 0 <= i < |groups| ensures ValidItems(fp, groups[i], lo, hi) {
      assert ValidPart(fp, parts[i], groups[i], vpb, lo, hi);
    }
  }

  /** At most 2^53 values match or may match. */
  ghost predicate FewListed(t: Tally) {
    t.sure + t.maybe <= INT_MAX
  }

  ghost predicate ExtremesRep(fp: Arith, t: Tally) {
    t.maybe > 0 ==> Rep(fp, Value(t.least)) && Rep(fp, -Value(t.greatest))
  }

  lemma {:induction false} ExtremesAreRep(fp: Arith, parts: seq<Part>, groups: seq<seq<Item>>, vpb: nat, lo: Ext, hi: Ext)
    requires Binary64(fp) && ValidBounds(fp, lo, hi) && ValidParts(fp, parts, groups, vpb, lo, hi)
    ensures ExtremesRep(fp, TallyOf(fp, parts, vpb))
  {
    PartsAreValid(fp, parts, groups, vpb, lo, hi);
    TallyExtremes(fp, parts, groups, vpb, lo, hi);
    BothExtremesRep(fp, TallyOf(fp, parts, vpb), groups, lo, hi);
  }

  lemma {:induction false} BothExtremesRep(fp: Arith, t: Tally, groups: seq<seq<Item>>, lo: Ext, hi: Ext)
    requires Binary64(fp) && ValidBounds(fp, lo, hi) && AllValid(fp, groups, lo, hi)
    requires TallyHasExtremes(t, AllMaybeEnds(fp, groups, lo, hi, true), AllMaybeEnds(fp, groups, lo, hi, false))
    ensures ExtremesRep(fp, t)
  {
    if t.maybe > 0 {
      ExtremeIsRep(fp, groups, lo, hi, true, t.least);
      ExtremeIsRep(fp, groups, lo, hi, false, Mirrored(t.greatest));
    }
  }

  /** Both ends of the mean, with the exact sums of the sure ends of all reads, and the extremes
    * of their maybe ends (TallyExtremes). */
  lemma {:induction false} MeanIsTight(fp: Arith, parts: seq<Part>, groups: seq<seq<Item>>, vpb: nat, lo: Ext, hi: Ext, z: real)
    requires Ieee.IsIeee(fp) && ValidBounds(fp, lo, hi) && ValidParts(fp, parts, groups, vpb, lo, hi) && Rep(fp, z)
    requires FewListed(TallyOf(fp, parts, vpb))
    ensures LowMeanTight(fp, TallyOf(fp, parts, vpb), SureEnds(fp, groups, lo, hi, true), Widths(groups), z)
    ensures HighMeanTight(fp, TallyOf(fp, parts, vpb), SureEnds(fp, groups, lo, hi, false), Widths(groups), z)
  {
    Ieee.IeeeIsBinary64(fp);
    ReadsAreReady(fp, parts, groups, vpb, lo, hi);
    ExtremesAreRep(fp, parts, groups, vpb, lo, hi);
    BothMeansTight(fp, TallyOf(fp, parts, vpb), TruthOfAll(fp, groups, lo, hi),
                   Join(Reads(fp, parts, groups, vpb, lo, hi, true)), Join(Reads(fp, parts, groups, vpb, lo, hi, false)),
                   EndSums(fp, groups, lo, hi, true), SureEnds(fp, groups, lo, hi, true),
                   EndSums(fp, groups, lo, hi, false), SureEnds(fp, groups, lo, hi, false), Widths(groups), z);
  }

  lemma {:induction false} BothMeansTight(fp: Arith, t: Tally, u: Truth, l: Joined, h: Joined, low: real, sureLow: real, high: real, sureHigh: real, width: real, z: real)
    requires Ieee.IsIeee(fp) && Ready(fp, t, u, l, h, low, sureLow, high, sureHigh, width) && FewListed(t) && Rep(fp, z)
    requires ExtremesRep(fp, t)
    ensures LowMeanTight(fp, t, sureLow, width, z) && HighMeanTight(fp, t, sureHigh, width, z)
  {
    TallyLowMean(fp, t, u, l, h, low, sureLow, width, z);
    TallyHighMean(fp, t, u, l, h, high, sureHigh, width, z);
  }

  /** Maybe ends are doubles. */
  lemma {:induction false} EndsAreRep(fp: Arith, its: seq<Item>, lo: Ext, hi: Ext, low: bool, i: nat)
    requires Binary64(fp) && ValidBounds(fp, lo, hi) && ValidItems(fp, its, lo, hi) && i < |MaybeEnds(fp, its, lo, hi, low)|
    ensures Rep(fp, MaybeEnds(fp, its, lo, hi, low)[i])
  {
    var n := |its| - 1;
    if i < |MaybeEnds(fp, its[..n], lo, hi, low)| {
      EndsAreRep(fp, its[..n], lo, hi, low, i);
    } else {
      assert ValidItem(fp, its[n], lo, hi);
      KindsAreRight(fp, its[n], lo, hi);
      NegatedIsRep(fp, HighEnd(fp, its[n], hi));
    }
  }

  lemma {:induction false} AllEndsAreRep(fp: Arith, groups: seq<seq<Item>>, lo: Ext, hi: Ext, low: bool, i: nat)
    requires Binary64(fp) && ValidBounds(fp, lo, hi) && AllValid(fp, groups, lo, hi) && i < |AllMaybeEnds(fp, groups, lo, hi, low)|
    ensures Rep(fp, AllMaybeEnds(fp, groups, lo, hi, low)[i])
  {
    var n := |groups| - 1;
    FrontIsValid(fp, groups, groups[..n], lo, hi);
    var front := AllMaybeEnds(fp, groups[..n], lo, hi, low);
    if i < |front| {
      AllEndsAreRep(fp, groups[..n], lo, hi, low, i);
    } else {
      EndsAreRep(fp, groups[n], lo, hi, low, i - |front|);
    }
  }

  lemma {:induction false} ExtremeIsRep(fp: Arith, groups: seq<seq<Item>>, lo: Ext, hi: Ext, low: bool, m: Ext)
    requires Binary64(fp) && ValidBounds(fp, lo, hi) && AllValid(fp, groups, lo, hi)
    requires var v := AllMaybeEnds(fp, groups, lo, hi, low); v != [] && IsLeastOf(v, m)
    ensures Rep(fp, Value(m))
  {
    var v := AllMaybeEnds(fp, groups, lo, hi, low);
    var i :| 0 <= i < |v| && v[i] == m.r;
    AllEndsAreRep(fp, groups, lo, hi, low, i);
  }
}
