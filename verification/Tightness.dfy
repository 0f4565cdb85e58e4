/** How tight the answer of combine() is: its ends of the sum are within rounding of the exact
  * ends, and its ends of the mean within rounding of the formula in exact arithmetic. */
module Tightness {
  import opened Rounding
  import opened Summation
  import opened Slack
  import opened FloatBounds
  import opened DoubleBounds
  import opened Aggregate
  import opened Intervals
  import opened Attained

  // ---- one read ----

  /** The sizes of a read's values, error bounds included. */
  function Sizes(its: seq<Item>): (r: real)
    ensures its == [] ==> r == 0.0
  {
    if its == [] then 0.0 else Sizes(its[..|its| - 1]) + (Abs(its[|its| - 1].r) + its[|its| - 1].eps)
  }

  /** (2 * n + 16) times them, in units of 2^-53. */
  ghost function Width(its: seq<Item>): real {
    2.0 * Times(|its|, Sizes(its)) + 16.0 * Sizes(its)
  }

  ghost predicate NearBound(bound: real, sizes: real) {
    sizes >= 0.0 && bound >= 0.0 && bound * 9007199254740992.0 <= sizes * 9007199254740993.0
  }

  function TermOf(fp: Arith, it: Item, lo: Ext, hi: Ext, low: bool): Term {
    if low then LowTerm(fp, it, lo, hi) else HighTerm(fp, it, lo, hi)
  }

  lemma {:induction false} TermIsNear(fp: Arith, it: Item, lo: Ext, hi: Ext, low: bool)
    requires Binary64(fp) && ValidItem(fp, it, lo, hi)
    ensures Near(TermOf(fp, it, lo, hi, low).t, Abs(it.r) + it.eps) && it.eps >= 0.0
  {
    RelativeError(fp, Abs(it.r) + it.eps);
    TermSize(fp, it, lo, hi);
  }

  lemma {:induction false} SizesAreNear(fp: Arith, its: seq<Item>, lo: Ext, hi: Ext, low: bool)
    requires Binary64(fp) && ValidItems(fp, its, lo, hi)
    ensures NearBound(Totals(Terms(fp, its, lo, hi, low)).bound, Sizes(its))
  {
    if its != [] {
      var n := |its| - 1;
      assert ValidItem(fp, its[n], lo, hi);
      SizesAreNear(fp, its[..n], lo, hi, low);
      TermIsNear(fp, its[n], lo, hi, low);
      SizesStep(fp, its, lo, hi, low, Terms(fp, its, lo, hi, low), its[..n]);
    }
  }

  lemma {:induction false} SizesStep(fp: Arith, its: seq<Item>, lo: Ext, hi: Ext, low: bool, ms: seq<Term>, front: seq<Item>)
    requires its != [] && ms == Terms(fp, its, lo, hi, low) && front == its[..|its| - 1] && NearBound(Totals(Terms(fp, front, lo, hi, low)).bound, Sizes(front))
    requires var it := its[|its| - 1]; Near(TermOf(fp, it, lo, hi, low).t, Abs(it.r) + it.eps) && it.eps >= 0.0
    ensures NearBound(Totals(ms).bound, Sizes(its))
  {
    var n := |its| - 1;
    TermsStep(fp, its, lo, hi, low);
    BoundStepUp(Totals(ms[..n]), ms[n], Sizes(front), Abs(its[n].r) + its[n].eps);
  }

  lemma {:induction false} BoundStepUp(e: Exact, m: Term, sizes: real, size: real)
    requires NearBound(e.bound, sizes) && size >= 0.0 && Near(m.t, size)
    ensures NearBound(AddExact(e, m).bound, sizes + size)
  {
  }

  /** The computed total of the bounds is not much too large either. */
  lemma {:induction false} BoundDrift(fp: Arith, ms: seq<Term>)
    requires Binary64(fp) && ValidTerms(fp, ms) && 1 <= |ms| <= MAX_TERMS
    ensures Drift(Accumulate(fp, ms).bound - Totals(ms).bound, |ms| - 1, Totals(ms).bound)
  {
    var n := |ms| - 1;
    var m, front := ms[n], ms[..n];
    var p, e := Accumulate(fp, front), Totals(front);
    AccumulateShape(fp, front);
    assert ValidTerm(fp, m);
    if n == 0 {
      FirstStep(fp, m.t);
      assert front == [];
    } else {
      BoundDrift(fp, front);
      AddStep(fp, p.bound, e.bound, m.t, n - 1, e.bound, m.t);
    }
  }

  /** The slack of a read of n values is at most (n + 2) * 2^-53 * (1 + 2^-50) of the bounds. */
  lemma {:induction false} SlackAbove(fp: Arith, n: nat, bound: real)
    requires Binary64(fp) && n <= MAX_TERMS && bound >= 0.0 && FloatSized(bound)
    ensures ReadSlack(fp, n, bound) * 10141204801825835211973625643008.0 <= Times(n + 2, bound) * 1125899906842625.0
  {
    var q := SlackRate(fp, n);
    SlackRateAbove(fp, n, q);
    SlackFactor(fp, n);
    SlackProduct(q, n, bound);
    RateTimes(q, n, bound);
    RelativeErrorOf(fp, Product(q, bound), bound);
  }

  lemma {:induction false} SlackRateAbove(fp: Arith, n: nat, q: real)
    requires Binary64(fp) && n <= MAX_TERMS && q == SlackRate(fp, n)
    ensures q * 81129638414606681695789005144064.0 <= (n + 2) as real * 9007199254740993.0
  {
    IntIsRep(fp, n + 2);
    RelativeError(fp, (n + 2) as real / 9007199254740992.0);
  }

  lemma {:induction false} RateTimes(q: real, n: nat, bound: real)
    requires bound >= 0.0 && q * 81129638414606681695789005144064.0 <= (n + 2) as real * 9007199254740993.0
    ensures Product(q, bound) * 81129638414606681695789005144064.0 <= Times(n + 2, bound) * 9007199254740993.0
  {
    TimesIs(n + 2, bound);
    MulLe(q * 81129638414606681695789005144064.0, (n + 2) as real * 9007199254740993.0, bound);
    assert (q * 81129638414606681695789005144064.0) * bound == Product(q, bound) * 81129638414606681695789005144064.0;
    assert ((n + 2) as real * 9007199254740993.0) * bound == ((n + 2) as real * bound) * 9007199254740993.0;
  }

  lemma {:induction false} RelativeErrorOf(fp: Arith, x: real, bound: real)
    requires Binary64(fp) && FloatSized(bound) && bound >= 0.0 && x * 9007199254740992.0 >= bound && x * 67108864.0 <= bound
    ensures fp.rnd(x) * 9007199254740992.0 <= x * 9007199254740993.0
  {
    if bound == 0.0 {
      assert x == 0.0;
    }
    RelativeError(fp, x);
  }

  /** The exact ends of a read's sums exceed the computed ones less the slack, and less all later
    * roundings, by at most its width; in units of 2^-53. */
  ghost predicate IsTight(end: real, computed: real, slack: real, bound: real, width: real) {
    (end - computed + slack) * 9007199254740992.0 + 8.0 * bound <= width
  }

  lemma {:induction false} ReadIsTight(fp: Arith, its: seq<Item>, lo: Ext, hi: Ext, low: bool)
    requires Binary64(fp) && ValidBounds(fp, lo, hi) && ValidItems(fp, its, lo, hi) && 1 <= |its| <= MAX_TERMS
    ensures var ms := Terms(fp, its, lo, hi, low);
            var (s, e) := (Accumulate(fp, ms), Totals(ms));
            var w := ReadSlack(fp, |its|, s.bound);
            && IsTight(e.sure + e.maybe, s.sure + s.maybe, w, s.bound, Width(its)) && IsTight(e.sure, s.sure, w, s.bound, Width(its))
            && 8.0 * s.bound <= Width(its)
  {
    var ms := Terms(fp, its, lo, hi, low);
    forall i | 0 <= i < |ms|
      ensures ValidTerm(fp, ms[i]) && FloatSized(ms[i].t) && Rep(fp, ms[i].t) && ms[i].t >= 0.0
    {
      assert ValidItem(fp, its[i], lo, hi);
      TermIsValid(fp, its[i], lo, hi);
      SizeIsFloatSized(fp, its[i], lo, hi);
      TermSize(fp, its[i], lo, hi);
    }
    TotalIsFloatSized(fp, ms);
    ReadErrors(fp, ms);
    BoundDrift(fp, ms);
    SizesAreNear(fp, its, lo, hi, low);
    SlackAbove(fp, |its|, Accumulate(fp, ms).bound);
    WidthFromErrors(fp, |its|, Accumulate(fp, ms), Totals(ms), Sizes(its), ReadSlack(fp, |its|, Accumulate(fp, ms).bound));
  }

  lemma {:induction false} WidthFromErrors(fp: Arith, n: nat, s: Sums, e: Exact, sizes: real, w: real)
    requires 1 <= n <= MAX_TERMS && Errors(fp, n - 1, s, e) && Drift(s.bound - e.bound, n - 1, e.bound) && NearBound(e.bound, sizes)
    requires w * 10141204801825835211973625643008.0 <= Times(n + 2, s.bound) * 1125899906842625.0
    ensures var width := 2.0 * Times(n, sizes) + 16.0 * sizes;
            IsTight(e.sure + e.maybe, s.sure + s.maybe, w, s.bound, width) && IsTight(e.sure, s.sure, w, s.bound, width)
            && 8.0 * s.bound <= width
  {
    WidthTimes(n, s, e, sizes);
    DriftTimes(n, e);
    WidthArithmetic(s.sure, s.maybe, s.bound, w, e, Times(n, sizes), sizes, Times(n - 1, e.sureBound), Times(n - 1, e.maybeBound),
                    Times(n, e.bound), Times(n + 2, s.bound));
  }

  lemma {:induction false} DriftTimes(n: nat, e: Exact)
    requires n >= 1 && 0.0 <= e.sureBound && 0.0 <= e.maybeBound && e.sureBound + e.maybeBound <= e.bound
    ensures Times(n - 1, e.sureBound) + Times(n - 1, e.maybeBound) <= Times(n, e.bound)
    ensures Times(n - 1, e.sureBound) >= 0.0 && Times(n - 1, e.maybeBound) >= 0.0
  {
    TimesSum(n - 1, e.sureBound, e.maybeBound);
    TimesMonotone(n - 1, e.sureBound + e.maybeBound, e.bound);
    TimesMore(n - 1, n, e.bound);
  }

  lemma {:induction false} WidthTimes(n: nat, s: Sums, e: Exact, sizes: real)
    requires 1 <= n <= MAX_TERMS && Drift(s.bound - e.bound, n - 1, e.bound) && NearBound(e.bound, sizes) && s.bound >= 0.0
    ensures Times(n, e.bound) * 268435456.0 <= Times(n, sizes) * 268435457.0 && e.bound * 268435456.0 <= sizes * 268435457.0
    ensures s.bound * 268435456.0 <= e.bound * 268435457.0
    ensures Times(n + 2, s.bound) * 72057594037927936.0 <= (Times(n, sizes) + 2.0 * sizes) * 72057594574798849.0
    ensures 0.0 <= Times(n, sizes) <= 16777216.0 * sizes
  {
    TimesSmall(n - 1, e.bound);
    assert s.bound * 268435456.0 <= e.bound * 268435457.0;
    TimesOfTotal(n, e.bound, sizes);
    TimesOfTotal(n + 2, s.bound, e.bound);
    TimesOfTotal(n + 2, e.bound, sizes);
    TwoMore(n, sizes);
    TimesSmall(n, sizes);
  }

  lemma {:induction false} TwoMore(n: nat, b: real)
    ensures Times(n + 2, b) == Times(n, b) + 2.0 * b
  {
    assert Times(n + 1, b) == Times(n, b) + b;
    assert Times(n + 2, b) == Times(n + 1, b) + b;
  }

  /** Everything linear: p is n * sizes, q is (n + 2) times the computed bound. */
  lemma {:induction false} WidthArithmetic(sure: real, maybe: real, a: real, w: real, e: Exact, p: real, sizes: real, pSure: real, pMaybe: real, pTotal: real, q: real)
    requires 0.0 <= p <= 16777216.0 * sizes && 0.0 <= sizes && pTotal * 268435456.0 <= p * 268435457.0 && e.bound * 268435456.0 <= sizes * 268435457.0
    requires a * 268435456.0 <= e.bound * 268435457.0 && q * 72057594037927936.0 <= (p + 2.0 * sizes) * 72057594574798849.0
    requires 0.0 <= pSure && 0.0 <= pMaybe && pSure + pMaybe <= pTotal
    requires Abs(sure - e.sure) * 2417851639229258349412352.0 <= pSure * 268435457.0
    requires Abs(maybe - e.maybe) * 2417851639229258349412352.0 <= pMaybe * 268435457.0
    requires w * 10141204801825835211973625643008.0 <= q * 1125899906842625.0
    ensures IsTight(e.sure + e.maybe, sure + maybe, w, a, 2.0 * p + 16.0 * sizes) && IsTight(e.sure, sure, w, a, 2.0 * p + 16.0 * sizes)
    ensures 8.0 * a <= 2.0 * p + 16.0 * sizes
  {
    var d := Abs(sure - e.sure) + Abs(maybe - e.maybe);
    assert d * 9007199254740992.0 <= p + sizes;
    assert w * 9007199254740992.0 <= p + 3.0 * sizes;
    assert 8.0 * a <= 9.0 * sizes;
  }

  // ---- all reads ----

  /** The exact sum of the sure ends of a read. */
  function SureEnd(fp: Arith, its: seq<Item>, lo: Ext, hi: Ext, low: bool): real {
    Totals(Terms(fp, its, lo, hi, low)).sure
  }

  function SureEnds(fp: Arith, groups: seq<seq<Item>>, lo: Ext, hi: Ext, low: bool): real {
    if groups == [] then 0.0
    else SureEnds(fp, groups[..|groups| - 1], lo, hi, low) + SureEnd(fp, groups[|groups| - 1], lo, hi, low)
  }

  ghost function Widths(groups: seq<seq<Item>>): real {
    if groups == [] then 0.0 else Widths(groups[..|groups| - 1]) + Width(groups[|groups| - 1])
  }

  ghost predicate JoinTight(j: Joined, all: real, sure: real, width: real) {
    IsTight(all, j.sure + j.maybe, j.slack, j.bound, width) && IsTight(sure, j.sure, j.slack, j.bound, width)
    && 8.0 * j.bound <= width
  }

  lemma {:induction false} JoinIsTight(fp: Arith, parts: seq<Part>, groups: seq<seq<Item>>, vpb: nat, lo: Ext, hi: Ext, low: bool)
    requires Binary64(fp) && ValidBounds(fp, lo, hi) && ValidParts(fp, parts, groups, vpb, lo, hi)
    ensures JoinTight(Join(Reads(fp, parts, groups, vpb, lo, hi, low)), EndSums(fp, groups, lo, hi, low), SureEnds(fp, groups, lo, hi, low), Widths(groups))
  {
    if parts != [] {
      var n := |parts| - 1;
      assert ValidPart(fp, parts[n], groups[n], vpb, lo, hi);
      JoinIsTight(fp, parts[..n], groups[..n], vpb, lo, hi, low);
      ReadsStep(fp, parts, groups, vpb, lo, hi, low);
      PartIsTight(fp, parts[n], groups[n], vpb, lo, hi, low);
      var r := if low then LowRead(fp, parts[n], groups[n], vpb, lo, hi) else HighRead(fp, parts[n], groups[n], vpb, lo, hi);
      TightStep(Join(Reads(fp, parts[..n], groups[..n], vpb, lo, hi, low)), r, EndSums(fp, groups[..n], lo, hi, low),
                SureEnds(fp, groups[..n], lo, hi, low), Widths(groups[..n]), EndSum(fp, groups[n], lo, hi, low),
                SureEnd(fp, groups[n], lo, hi, low), Width(groups[n]));
    }
  }

  lemma {:induction false} PartIsTight(fp: Arith, p: Part, its: seq<Item>, vpb: nat, lo: Ext, hi: Ext, low: bool)
    requires Binary64(fp) && ValidBounds(fp, lo, hi) && ValidPart(fp, p, its, vpb, lo, hi)
    ensures var r := if low then LowRead(fp, p, its, vpb, lo, hi) else HighRead(fp, p, its, vpb, lo, hi);
            && IsTight(EndSum(fp, its, lo, hi, low), r.sure + r.maybe, r.slack, r.bound, Width(its))
            && IsTight(SureEnd(fp, its, lo, hi, low), r.sure, r.slack, r.bound, Width(its)) && 8.0 * r.bound <= Width(its)
  {
    RunIsAccumulate(fp, its, lo, hi);
    ReadIsTight(fp, its, lo, hi, low);
  }

  lemma {:induction false} TightStep(j: Joined, r: Read, all: real, sure: real, width: real, end: real, sureEnd: real, w: real)
    requires JoinTight(j, all, sure, width) && IsTight(end, r.sure + r.maybe, r.slack, r.bound, w) && IsTight(sureEnd, r.sure, r.slack, r.bound, w)
    requires 8.0 * r.bound <= w
    ensures JoinTight(AddRead(j, r), all + end, sure + sureEnd, width + w)
  {
  }

  // ---- the ends of the sum ----

  /** Everything that combine() rounds on the way to a lower end. */
  ghost predicate LowRounded(fp: Arith, j: Joined, r: real, g: real) {
    && r == fp.rnd(fp.rnd(j.sure) - fp.rnd(j.slack)) && g == fp.rnd(r + fp.rnd(j.maybe))
  }

  lemma {:induction false} RoundingIsSmall(fp: Arith, j: Joined, r: real, g: real)
    requires Binary64(fp) && JoinCovered(fp, j) && LowRounded(fp, j, r, g)
    ensures (j.sure - j.slack - r) * 9007199254740992.0 <= 4.0 * j.bound
    ensures (j.sure + j.maybe - j.slack - g) * 9007199254740992.0 <= 6.0 * j.bound
    ensures Abs(r) <= 2.0 * j.bound
  {
    var f, k, m := fp.rnd(j.sure), fp.rnd(j.slack), fp.rnd(j.maybe);
    JoinRounded(fp, j, f, k, m);
    DifferenceRounded(fp, j.sure, j.slack, f, k);
    RoundedIsRep(fp, j.maybe);
    SumError(fp, r, m);
    RoundingArithmetic(j.sure, j.maybe, j.slack, j.bound, j.absSure, j.absMaybe, f, k, m, r, g);
  }

  lemma {:induction false} RoundingArithmetic(sure: real, maybe: real, slack: real, bound: real, absSure: real, absMaybe: real, f: real, k: real, m: real, r: real, g: real)
    requires 0.0 <= slack * 16.0 <= bound
    requires Abs(sure) <= absSure && Abs(maybe) <= absMaybe && (absSure + absMaybe) * 8.0 <= bound * 9.0
    requires Near(f, sure) && Near(k, slack) && Near(m, maybe) && Near(r, f - k) && Near(g, r + m)
    ensures (sure - slack - r) * 9007199254740992.0 <= 4.0 * bound && (sure + maybe - slack - g) * 9007199254740992.0 <= 6.0 * bound
    ensures Abs(r) <= 2.0 * bound
  {
    assert Abs(f - sure) * 9007199254740992.0 <= absSure && Abs(k - slack) * 9007199254740992.0 <= slack && Abs(m - maybe) * 9007199254740992.0 <= absMaybe;
    assert Abs(f - k) <= 2.0 * (absSure + slack);
    assert Abs(f - k) * 9007199254740992.0 <= (absSure + slack) * 9007199254740993.0;
    assert Abs(r) * 1024.0 <= (absSure + slack) * 1025.0;
    assert Abs(m) * 1024.0 <= absMaybe * 1025.0;
    assert Abs(r + m) * 1024.0 <= (absSure + slack + absMaybe) * 1025.0;
  }

  /** The lower end of the sum: every double that lies more than the width below the exact end
    * is at most the returned one. */
  lemma {:induction false} LowEndIsTight(fp: Arith, j: Joined, r: real, g: real, all: real, sure: real, width: real, z: real)
    requires Binary64(fp) && JoinCovered(fp, j) && LowRounded(fp, j, r, g) && JoinTight(j, all, sure, width)
    requires Rep(fp, z) && z * 9007199254740992.0 + width < all * 9007199254740992.0
    ensures z <= fp.down(g)
  {
    RoundingIsSmall(fp, j, r, g);
    assert z < g;
    assert Ask(g, z);
  }

  /** The tally next to the joined reads, with the exact ends of the sums. */
  ghost predicate Ready(fp: Arith, t: Tally, u: Truth, l: Joined, h: Joined, low: real, sureLow: real, high: real, sureHigh: real, width: real) {
    && JoinCovered(fp, l) && JoinCovered(fp, h) && TallyAgrees(t, u, l, h)
    && JoinTight(l, low, sureLow, width) && JoinTight(h, high, sureHigh, width)
  }

  lemma {:induction false} ReadsAreReady(fp: Arith, parts: seq<Part>, groups: seq<seq<Item>>, vpb: nat, lo: Ext, hi: Ext)
    requires Binary64(fp) && ValidBounds(fp, lo, hi) && ValidParts(fp, parts, groups, vpb, lo, hi)
    ensures Ready(fp, TallyOf(fp, parts, vpb), TruthOfAll(fp, groups, lo, hi),
                  Join(Reads(fp, parts, groups, vpb, lo, hi, true)), Join(Reads(fp, parts, groups, vpb, lo, hi, false)),
                  EndSums(fp, groups, lo, hi, true), SureEnds(fp, groups, lo, hi, true),
                  EndSums(fp, groups, lo, hi, false), SureEnds(fp, groups, lo, hi, false), Widths(groups))
  {
    ReadsAreCovered(fp, parts, groups, vpb, lo, hi, true);
    ReadsAreCovered(fp, parts, groups, vpb, lo, hi, false);
    JoinIsCovered(fp, Reads(fp, parts, groups, vpb, lo, hi, true));
    JoinIsCovered(fp, Reads(fp, parts, groups, vpb, lo, hi, false));
    TallyIsJoin(fp, parts, groups, vpb, lo, hi);
    JoinIsTight(fp, parts, groups, vpb, lo, hi, true);
    JoinIsTight(fp, parts, groups, vpb, lo, hi, false);
  }

  /** The returned ends of the sum are within the width of the exact ends. */
  lemma {:induction false} SumIsTight(fp: Arith, parts: seq<Part>, groups: seq<seq<Item>>, vpb: nat, lo: Ext, hi: Ext, z: real)
    requires Binary64(fp) && ValidBounds(fp, lo, hi) && ValidParts(fp, parts, groups, vpb, lo, hi) && Rep(fp, z)
    ensures z * 9007199254740992.0 + Widths(groups) < EndSums(fp, groups, lo, hi, true) * 9007199254740992.0 ==> z <= Combine(fp, parts, vpb).sumLow
    ensures -z * 9007199254740992.0 + Widths(groups) < EndSums(fp, groups, lo, hi, false) * 9007199254740992.0 ==> Combine(fp, parts, vpb).sumHigh <= z
  {
    ReadsAreReady(fp, parts, groups, vpb, lo, hi);
    SumEndsAreTight(fp, TallyOf(fp, parts, vpb), TruthOfAll(fp, groups, lo, hi),
                    Join(Reads(fp, parts, groups, vpb, lo, hi, true)), Join(Reads(fp, parts, groups, vpb, lo, hi, false)),
                    EndSums(fp, groups, lo, hi, true), SureEnds(fp, groups, lo, hi, true),
                    EndSums(fp, groups, lo, hi, false), SureEnds(fp, groups, lo, hi, false), Widths(groups), z);
  }

  lemma {:induction false} SumEndsAreTight(fp: Arith, t: Tally, u: Truth, l: Joined, h: Joined, low: real, sureLow: real, high: real, sureHigh: real, width: real, z: real)
    requires Binary64(fp) && Ready(fp, t, u, l, h, low, sureLow, high, sureHigh, width) && Rep(fp, z)
    ensures z * 9007199254740992.0 + width < low * 9007199254740992.0 ==> z <= AnswerOf(fp, t).sumLow
    ensures -z * 9007199254740992.0 + width < high * 9007199254740992.0 ==> AnswerOf(fp, t).sumHigh <= z
  {
    if z * 9007199254740992.0 + width < low * 9007199254740992.0 {
      LowEndIsTight(fp, l, SureLow(fp, t), fp.rnd(SureLow(fp, t) + fp.rnd(t.neg)), low, sureLow, width, z);
    }
    if -z * 9007199254740992.0 + width < high * 9007199254740992.0 {
      HighEndIsTight(fp, t, h, high, sureHigh, width, z);
    }
  }

  lemma {:induction false} HighEndIsTight(fp: Arith, t: Tally, h: Joined, high: real, sureHigh: real, width: real, z: real)
    requires Binary64(fp) && JoinCovered(fp, h) && JoinTight(h, high, sureHigh, width) && Rep(fp, z)
    requires t.sureHi == -h.sure && t.pos == -h.maybe && t.slack == h.slack
    requires -z * 9007199254740992.0 + width < high * 9007199254740992.0
    ensures Up(fp, fp.rnd(SureHigh(fp, t) + fp.rnd(t.pos))) <= z
  {
    var r := -SureHigh(fp, t);
    var g := -fp.rnd(SureHigh(fp, t) + fp.rnd(t.pos));
    SureHighMirrors(fp, t, h);
    Symmetric(fp, t.pos);
    Symmetric(fp, SureHigh(fp, t) + fp.rnd(t.pos));
    assert r + fp.rnd(h.maybe) == -(SureHigh(fp, t) + fp.rnd(t.pos));
    NegatedIsRep(fp, z);
    LowEndIsTight(fp, h, r, g, high, sureHigh, width, -z);
  }

  lemma {:induction false} SureHighMirrors(fp: Arith, t: Tally, h: Joined)
    requires Binary64(fp) && t.sureHi == -h.sure && t.slack == h.slack
    ensures SureHigh(fp, t) == -fp.rnd(fp.rnd(h.sure) - fp.rnd(h.slack))
  {
    Symmetric(fp, t.sureHi);
    Symmetric(fp, fp.rnd(t.sureHi) + fp.rnd(t.slack));
    assert fp.rnd(h.sure) - fp.rnd(h.slack) == -(fp.rnd(t.sureHi) + fp.rnd(t.slack));
  }
}
