/** The slack that combine() adds to each read's sums covers every rounding: of the
  * running totals, of the slack itself, and of putting the reads together. */
module Slack {
  import opened Rounding
  import opened Summation

  /** (n * values_per_block + 2) * _U * abs_total, with _U = 2^-53, for n values. */
  function ReadSlack(fp: Arith, n: nat, bound: real): real {
    fp.rnd(Product(SlackRate(fp, n), bound))
  }

  function Product(a: real, b: real): real {
    a * b
  }

  function SlackRate(fp: Arith, n: nat): real {
    fp.rnd(fp.rnd((n + 2) as real) / 9007199254740992.0)
  }

  /** One read's computed sums and slack against the exact sums y of what its
    * original values add, in units of its computed total of bounds. */
  ghost predicate ReadCovered(fp: Arith, sure: real, maybe: real, bound: real, slack: real, ySure: real, yMaybe: real) {
    && Rep(fp, sure) && Rep(fp, maybe) && Rep(fp, slack) && bound >= 0.0
    && (slack == 0.0 || slack * 51422017416287688817342786954917203280710495801049370729644032.0 >= 1.0)
    && 0.0 <= slack * 16.0 <= bound
    && (Abs(sure) + Abs(maybe)) * 8.0 <= bound * 9.0
    && (sure + maybe - slack - ySure - yMaybe) * 36028797018963968.0 <= -11.0 * bound
    && (sure - slack - ySure) * 36028797018963968.0 <= -11.0 * bound
  }

  // ---- the slack of one read ----

  lemma {:induction false} TimesMonotone(n: nat, b: real, c: real)
    requires b <= c
    ensures Times(n, b) <= Times(n, c)
  {
    if n > 0 { TimesMonotone(n - 1, b, c); }
  }

  /** The exact total of the bounds is barely above the computed one. */
  lemma {:induction false} TotalOfBounds(n: nat, total: real, a: real)
    requires n <= MAX_TERMS && total >= 0.0 && a >= 0.0
    requires (total - a) * 9007199254740992.0 <= Times(n, total)
    ensures total * 268435456.0 <= a * 268435457.0
    ensures Times(n, total) * 268435456.0 <= Times(n, a) * 268435457.0
  {
    TimesSmall(n, total);
    assert total * 268435456.0 <= a * 268435457.0;
    TimesOfTotal(n, total, a);
  }

  lemma {:induction false} TimesOfTotal(n: nat, total: real, a: real)
    requires total * 268435456.0 <= a * 268435457.0
    ensures Times(n, total) * 268435456.0 <= Times(n, a) * 268435457.0
  {
    if n > 0 { TimesOfTotal(n - 1, total, a); }
  }

  lemma {:induction false} ProductBounds(q: real, n: nat, a: real)
    requires a >= 0.0
    requires (n + 2) as real * 9007199254740991.0 <= q * 81129638414606681695789005144064.0
    ensures Times(n + 2, a) * 9007199254740991.0 <= (q * a) * 81129638414606681695789005144064.0
  {
    TimesIs(n + 2, a);
    MulLe((n + 2) as real * 9007199254740991.0, q * 81129638414606681695789005144064.0, a);
    Regroup((n + 2) as real, a, q);
  }

  lemma {:induction false} MulLe(a: real, b: real, c: real)
    requires 0.0 <= c && a <= b
    ensures a * c <= b * c
  {
  }

  lemma {:induction false} Regroup(n: real, a: real, q: real)
    ensures (n * 9007199254740991.0) * a == (n * a) * 9007199254740991.0
    ensures (q * 81129638414606681695789005144064.0) * a == (q * a) * 81129638414606681695789005144064.0
  {
  }

  lemma {:induction false} SlackFactor(fp: Arith, n: nat)
    requires Binary64(fp) && n <= MAX_TERMS
    ensures var q := SlackRate(fp, n);
            && (n + 2) as real * 9007199254740991.0 <= q * 81129638414606681695789005144064.0
            && q * 67108864.0 <= 1.0 && q * 9007199254740992.0 >= 1.0
  {
    IntIsRep(fp, n + 2);
    RelativeError(fp, (n + 2) as real / 9007199254740992.0);
  }

  /** Everything the proofs need to know of the factor times the bound. */
  lemma {:induction false} SlackProduct(q: real, n: nat, bound: real)
    requires bound >= 0.0
    requires (n + 2) as real * 9007199254740991.0 <= q * 81129638414606681695789005144064.0
    requires q * 67108864.0 <= 1.0 && q * 9007199254740992.0 >= 1.0
    ensures Product(q, bound) * 9007199254740992.0 >= bound && Product(q, bound) * 67108864.0 <= bound
    ensures Times(n + 2, bound) * 9007199254740991.0 <= Product(q, bound) * 81129638414606681695789005144064.0
  {
    ProductBounds(q, n, bound);
    ScaledProduct(q, bound, q * bound, 9007199254740992.0);
    ScaledProduct(q, bound, q * bound, 67108864.0);
  }

  /** q * k compares with 1 as the product p = q * b times k compares with b. */
  lemma {:induction false} ScaledProduct(q: real, b: real, p: real, k: real)
    requires b >= 0.0 && p == q * b
    ensures q * k <= 1.0 ==> p * k <= b
    ensures q * k >= 1.0 ==> p * k >= b
  {
    assert (q * k) * b == p * k;
    if q * k <= 1.0 {
      MulLe(q * k, 1.0, b);
    } else {
      MulLe(1.0, q * k, b);
    }
  }

  lemma {:induction false} SlackSize(fp: Arith, n: nat, bound: real)
    requires Binary64(fp) && n <= MAX_TERMS
    requires bound == 0.0 || bound * 1427247692705959881058285969449495136382746624.0 >= 1.0
    ensures SlackFacts(fp, n, bound, ReadSlack(fp, n, bound))
  {
    SlackFactor(fp, n);
    SlackProduct(SlackRate(fp, n), n, bound);
    RoundedSlack(fp, n, bound, Product(SlackRate(fp, n), bound));
  }

  ghost predicate SlackFacts(fp: Arith, n: nat, bound: real, w: real) {
    && Rep(fp, w) && 0.0 <= w * 16.0 <= bound
    && (w == 0.0 || w * 51422017416287688817342786954917203280710495801049370729644032.0 >= 1.0)
    && Times(n + 2, bound) * 9007199254740990.0 <= w * 81129638414606681695789005144064.0
  }

  lemma {:induction false} RoundedSlack(fp: Arith, n: nat, bound: real, x: real)
    requires Binary64(fp)
    requires bound == 0.0 || bound * 1427247692705959881058285969449495136382746624.0 >= 1.0
    requires x * 9007199254740992.0 >= bound && x * 67108864.0 <= bound
    requires Times(n + 2, bound) * 9007199254740991.0 <= x * 81129638414606681695789005144064.0
    ensures SlackFacts(fp, n, bound, fp.rnd(x))
  {
    RoundedIsRep(fp, x);
    RelativeError(fp, x);
    if bound == 0.0 {
      assert x == 0.0;
    } else {
      RoundedSize(x, fp.rnd(x), bound);
    }
  }

  lemma {:induction false} RoundedSize(x: real, w: real, bound: real)
    requires Near(w, x) && x * 9007199254740992.0 >= bound && x * 67108864.0 <= bound
    requires bound * 1427247692705959881058285969449495136382746624.0 >= 1.0
    ensures w * 16.0 <= bound
    ensures w * 51422017416287688817342786954917203280710495801049370729644032.0 >= 1.0
    ensures x * 9007199254740991.0 <= w * 9007199254740992.0
  {
    assert x > 0.0 && Abs(x) == x;
  }

  /** The arithmetic of one read: n + 1 values, p = n * a, with everything linear. */
  lemma {:induction false} CoverArithmetic(sure: real, maybe: real, a: real, w: real, e: Exact, pTotal: real, p: real, pSure: real, pMaybe: real)
    requires a >= 0.0 && 0.0 <= p <= 16777216.0 * a && pTotal * 268435456.0 <= p * 268435457.0
    requires e.bound * 268435456.0 <= a * 268435457.0
    requires 0.0 <= e.sureBound && 0.0 <= e.maybeBound && e.sureBound + e.maybeBound <= e.bound
    requires 0.0 <= pSure && 0.0 <= pMaybe && pSure + pMaybe <= pTotal
    requires Abs(sure - e.sure) * 2417851639229258349412352.0 <= pSure * 268435457.0
    requires Abs(maybe - e.maybe) * 2417851639229258349412352.0 <= pMaybe * 268435457.0
    requires Abs(e.sure) <= e.sureBound && Abs(e.maybe) <= e.maybeBound
    requires e.sure <= e.sureTrue && e.maybe <= e.maybeTrue
    requires (p + 3.0 * a) * 9007199254740990.0 <= w * 81129638414606681695789005144064.0
    ensures (Abs(sure) + Abs(maybe)) * 8.0 <= a * 9.0
    ensures (sure + maybe - w - e.sureTrue - e.maybeTrue) * 36028797018963968.0 <= -11.0 * a
    ensures (sure - w - e.sureTrue) * 36028797018963968.0 <= -11.0 * a
  {
    var d := Abs(sure - e.sure) + Abs(maybe - e.maybe);
    assert d * 2417851639229258349412352.0 <= pTotal * 268435457.0;
    assert d * 8.0 <= a by {
      assert pTotal * 268435456.0 <= 16777216.0 * 268435457.0 * a;
    }
    assert sure <= e.sure + Abs(sure - e.sure) && maybe <= e.maybe + Abs(maybe - e.maybe);
    SlackBeatsDrift(d, pTotal, p, a, w);
  }

  lemma {:induction false} SlackBeatsDrift(d: real, pTotal: real, p: real, a: real, w: real)
    requires a >= 0.0 && 0.0 <= p <= 16777216.0 * a && pTotal * 268435456.0 <= p * 268435457.0
    requires d * 2417851639229258349412352.0 <= pTotal * 268435457.0
    requires (p + 3.0 * a) * 9007199254740990.0 <= w * 81129638414606681695789005144064.0
    ensures (d - w) * 36028797018963968.0 <= -11.0 * a
  {
  }

  /** A read of at most 2^24 values is covered by its slack. */
  lemma {:induction false} SlackCoversRead(fp: Arith, ms: seq<Term>)
    requires Binary64(fp) && ValidTerms(fp, ms) && 1 <= |ms| <= MAX_TERMS
    requires var a := Accumulate(fp, ms).bound; a == 0.0 || a * 1427247692705959881058285969449495136382746624.0 >= 1.0
    ensures var s, e := Accumulate(fp, ms), Totals(ms);
            ReadCovered(fp, s.sure, s.maybe, s.bound, ReadSlack(fp, |ms|, s.bound), e.sureTrue, e.maybeTrue)
  {
    ReadErrors(fp, ms);
    CoverFromErrors(fp, |ms| - 1, Accumulate(fp, ms), Totals(ms));
  }

  /** What the induction over a read gives. */
  ghost predicate Errors(fp: Arith, n: nat, s: Sums, e: Exact) {
    && Bounded(fp, s, e) && s.bound >= 0.0
    && Drift(s.sure - e.sure, n, e.sureBound) && Drift(s.maybe - e.maybe, n, e.maybeBound)
    && (e.bound - s.bound) * 9007199254740992.0 <= Times(n, e.bound)
  }

  lemma {:induction false} ReadErrors(fp: Arith, ms: seq<Term>)
    requires Binary64(fp) && ValidTerms(fp, ms) && 1 <= |ms| <= MAX_TERMS
    ensures Errors(fp, |ms| - 1, Accumulate(fp, ms), Totals(ms))
  {
    AccumulateShape(fp, ms);
    SureError(fp, ms);
    MaybeError(fp, ms);
    BoundError(fp, ms);
    BoundIsPositive(fp, ms);
  }

  lemma {:induction false} CoverFromErrors(fp: Arith, n: nat, s: Sums, e: Exact)
    requires Binary64(fp) && Errors(fp, n, s, e) && n + 1 <= MAX_TERMS
    requires s.bound == 0.0 || s.bound * 1427247692705959881058285969449495136382746624.0 >= 1.0
    ensures ReadCovered(fp, s.sure, s.maybe, s.bound, ReadSlack(fp, n + 1, s.bound), e.sureTrue, e.maybeTrue)
  {
    TimesFacts(n, e, s.bound);
    SlackSize(fp, n + 1, s.bound);
    CoverLinear(fp, n, s, e, ReadSlack(fp, n + 1, s.bound), Times(n, e.bound), Times(n, s.bound), Times(n, e.sureBound), Times(n, e.maybeBound));
  }

  lemma {:induction false} TimesFacts(n: nat, e: Exact, a: real)
    requires n <= MAX_TERMS && a >= 0.0 && e.bound >= 0.0
    requires e.sureBound + e.maybeBound <= e.bound
    requires (e.bound - a) * 9007199254740992.0 <= Times(n, e.bound)
    ensures e.bound * 268435456.0 <= a * 268435457.0
    ensures Times(n, e.bound) * 268435456.0 <= Times(n, a) * 268435457.0
    ensures Times(n, a) <= 16777216.0 * a && Times(n + 3, a) == Times(n, a) + 3.0 * a
    ensures Times(n, e.sureBound) + Times(n, e.maybeBound) <= Times(n, e.bound)
  {
    TotalOfBounds(n, e.bound, a);
    TimesSmall(n, a);
    TimesSum(n, e.sureBound, e.maybeBound);
    TimesMonotone(n, e.sureBound + e.maybeBound, e.bound);
    ThreeMore(n, a);
  }

  lemma {:induction false} CoverLinear(fp: Arith, n: nat, s: Sums, e: Exact, w: real, pTotal: real, p: real, pSure: real, pMaybe: real)
    requires Bounded(fp, s, e) && s.bound >= 0.0
    requires SlackFacts(fp, n + 1, s.bound, w) && Times(n + 3, s.bound) == p + 3.0 * s.bound
    requires p == Times(n, s.bound) && pSure == Times(n, e.sureBound) && pMaybe == Times(n, e.maybeBound)
    requires Drift(s.sure - e.sure, n, e.sureBound) && Drift(s.maybe - e.maybe, n, e.maybeBound)
    requires e.bound * 268435456.0 <= s.bound * 268435457.0 && pTotal * 268435456.0 <= p * 268435457.0
    requires p <= 16777216.0 * s.bound && pSure + pMaybe <= pTotal
    ensures ReadCovered(fp, s.sure, s.maybe, s.bound, w, e.sureTrue, e.maybeTrue)
  {
    CoverArithmetic(s.sure, s.maybe, s.bound, w, e, pTotal, p, pSure, pMaybe);
  }

  lemma {:induction false} ThreeMore(n: nat, b: real)
    ensures Times(n + 3, b) == Times(n, b) + 3.0 * b
  {
    assert Times(n + 1, b) == Times(n, b) + b;
    assert Times(n + 2, b) == Times(n + 1, b) + b;
    assert Times(n + 3, b) == Times(n + 2, b) + b;
  }

  lemma {:induction false} BoundIsPositive(fp: Arith, ms: seq<Term>)
    requires Binary64(fp) && ValidTerms(fp, ms)
    ensures Accumulate(fp, ms).bound >= 0.0
  {
    ZeroIsRep(fp);
    if ms != [] {
      BoundIsPositive(fp, ms[..|ms| - 1]);
      assert ValidTerm(fp, ms[|ms| - 1]);
      AboveDouble(fp, 0.0, Accumulate(fp, ms[..|ms| - 1]).bound + ms[|ms| - 1].t);
    }
  }

  // ---- putting the reads together ----

  /** One read as combine() sees it, with the exact sums its bounds are about. */
  datatype Read = Read(sure: real, maybe: real, bound: real, slack: real, ySure: real, yMaybe: real)

  ghost predicate AllCovered(fp: Arith, rs: seq<Read>) {
    forall i :: 0 <= i < |rs| ==>
      ReadCovered(fp, rs[i].sure, rs[i].maybe, rs[i].bound, rs[i].slack, rs[i].ySure, rs[i].yMaybe)
  }

  /** Exact sums over the reads. */
  datatype Joined = Joined(sure: real, maybe: real, bound: real, slack: real, ySure: real, yMaybe: real,
                           absSure: real, absMaybe: real)

  function Join(rs: seq<Read>): Joined {
    if rs == [] then Joined(0.0, 0.0, 0.0, 0.0, 0.0, 0.0, 0.0, 0.0)
    else
      AddRead(Join(rs[..|rs| - 1]), rs[|rs| - 1])
  }

  function AddRead(p: Joined, r: Read): Joined {
    Joined(p.sure + r.sure, p.maybe + r.maybe, p.bound + r.bound, p.slack + r.slack,
           p.ySure + r.ySure, p.yMaybe + r.yMaybe, p.absSure + Abs(r.sure), p.absMaybe + Abs(r.maybe))
  }

  ghost predicate JoinCovered(fp: Arith, j: Joined) {
    && Multiple(fp, j.sure) && Multiple(fp, j.maybe)
    && (j.slack == 0.0 || j.slack * 51422017416287688817342786954917203280710495801049370729644032.0 >= 1.0)
    && 0.0 <= j.slack * 16.0 <= j.bound
    && Abs(j.sure) <= j.absSure && Abs(j.maybe) <= j.absMaybe
    && (j.absSure + j.absMaybe) * 8.0 <= j.bound * 9.0
    && (j.sure + j.maybe - j.slack - j.ySure - j.yMaybe) * 36028797018963968.0 <= -11.0 * j.bound
    && (j.sure - j.slack - j.ySure) * 36028797018963968.0 <= -11.0 * j.bound
  }

  lemma {:induction false} JoinIsCovered(fp: Arith, rs: seq<Read>)
    requires Binary64(fp) && AllCovered(fp, rs)
    ensures JoinCovered(fp, Join(rs))
  {
    if rs == [] {
      MultipleZero(fp);
    } else {
      var p, r := Join(rs[..|rs| - 1]), rs[|rs| - 1];
      JoinIsCovered(fp, rs[..|rs| - 1]);
      assert ReadCovered(fp, r.sure, r.maybe, r.bound, r.slack, r.ySure, r.yMaybe);
      JoinStep(fp, p, r);
    }
  }

  lemma {:induction false} JoinStep(fp: Arith, p: Joined, r: Read)
    requires Binary64(fp) && JoinCovered(fp, p)
    requires ReadCovered(fp, r.sure, r.maybe, r.bound, r.slack, r.ySure, r.yMaybe)
    ensures JoinCovered(fp, AddRead(p, r))
  {
    RepIsMultiple(fp, r.sure);
    RepIsMultiple(fp, r.maybe);
    MultipleSum(fp, p.sure, r.sure);
    MultipleSum(fp, p.maybe, r.maybe);
  }

  /** sure_lo = fsum(sure_sum_lo) - slack stays below what the sure originals add, and
    * with the maybe sum it stays below what all matching originals add. */
  lemma {:induction false} SureLowIsBelow(fp: Arith, j: Joined)
    requires Binary64(fp) && JoinCovered(fp, j)
    ensures var sureLo := fp.rnd(fp.rnd(j.sure) - fp.rnd(j.slack));
            && Rep(fp, sureLo) && sureLo <= j.ySure && sureLo + fp.rnd(j.maybe) <= j.ySure + j.yMaybe
  {
    var f, k, m := fp.rnd(j.sure), fp.rnd(j.slack), fp.rnd(j.maybe);
    JoinRounded(fp, j, f, k, m);
    DifferenceRounded(fp, j.sure, j.slack, f, k);
    JoinArithmetic(j.sure, j.maybe, j.slack, j.bound, j.ySure, j.yMaybe, j.absSure, j.absMaybe, f, k, m, fp.rnd(f - k));
  }

  lemma {:induction false} JoinRounded(fp: Arith, j: Joined, f: real, k: real, m: real)
    requires Binary64(fp) && JoinCovered(fp, j) && f == fp.rnd(j.sure) && k == fp.rnd(j.slack) && m == fp.rnd(j.maybe)
    ensures Near(f, j.sure) && Near(k, j.slack) && Near(m, j.maybe)
  {
    MultipleError(fp, j.sure);
    MultipleError(fp, j.maybe);
    RelativeError(fp, j.slack);
  }

  lemma {:induction false} DifferenceRounded(fp: Arith, x: real, y: real, f: real, k: real)
    requires Binary64(fp) && f == fp.rnd(x) && k == fp.rnd(y)
    ensures Near(fp.rnd(f - k), f - k) && Rep(fp, fp.rnd(f - k))
  {
    RoundedIsRep(fp, x);
    RoundedIsRep(fp, y);
    NegatedIsRep(fp, k);
    SumError(fp, f, -k);
    RoundedIsRep(fp, f - k);
  }

  lemma {:induction false} JoinArithmetic(sure: real, maybe: real, slack: real, bound: real, ySure: real, yMaybe: real,
                       absSure: real, absMaybe: real, f: real, k: real, m: real, r: real)
    requires 0.0 <= slack * 16.0 <= bound
    requires Abs(sure) <= absSure && Abs(maybe) <= absMaybe && (absSure + absMaybe) * 8.0 <= bound * 9.0
    requires (sure + maybe - slack - ySure - yMaybe) * 36028797018963968.0 <= -11.0 * bound
    requires (sure - slack - ySure) * 36028797018963968.0 <= -11.0 * bound
    requires Near(f, sure) && Near(k, slack) && Near(m, maybe) && Near(r, f - k)
    ensures r <= ySure && r + m <= ySure + yMaybe
  {
    assert f - sure <= Abs(f - sure) && k - slack >= -Abs(k - slack) && m - maybe <= Abs(m - maybe);
    assert Abs(f - k) <= Abs(f) + Abs(k);
    assert Abs(f) <= absSure + Abs(f - sure) && Abs(k) <= slack + Abs(k - slack);
  }
}
