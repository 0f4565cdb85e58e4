/** combine(): the answer of a filtered aggregate and the guaranteed intervals for the
  * original values, with every double operation rounded. */
module Intervals {
  import opened Rounding
  import opened Summation
  import opened Slack
  import opened FloatBounds
  import opened DoubleBounds
  import opened Aggregate

  /** The totals of one read of so many blocks. */
  datatype Part = Part(agg: Agg, blocks: nat)

  datatype MeanBounds = NoMean | MeanBounds(low: Ext, high: Ext)

  datatype Answer = Answer(count: nat, total: real, countLow: nat, countHigh: nat, sumLow: real, sumHigh: real,
                           mean: MeanBounds)

  /** Exact sums over the parts: math.fsum rounds each of them once. */
  datatype Tally = Tally(count: nat, total: real, sure: nat, maybe: nat, slack: real, sureLo: real, sureHi: real,
                         neg: real, pos: real, least: Ext, greatest: Ext)

  function TallyOf(fp: Arith, parts: seq<Part>, valuesPerBlock: nat): Tally {
    if parts == [] then Tally(0, 0.0, 0, 0, 0.0, 0.0, 0.0, 0.0, 0.0, PosInf, NegInf)
    else
      AddPart(fp, TallyOf(fp, parts[..|parts| - 1], valuesPerBlock), parts[|parts| - 1], valuesPerBlock)
  }

  function AddPart(fp: Arith, t: Tally, p: Part, valuesPerBlock: nat): Tally {
    Tally(t.count + p.agg.recCount, t.total + p.agg.recSum, t.sure + p.agg.sureCount, t.maybe + p.agg.maybeCount,
          t.slack + ReadSlack(fp, p.blocks * valuesPerBlock, p.agg.absTotal),
          t.sureLo + p.agg.sureLo, t.sureHi + p.agg.sureHi, t.neg + p.agg.maybeNeg, t.pos + p.agg.maybePos,
          if p.agg.maybeMin.Less(t.least) then p.agg.maybeMin else t.least,
          if t.greatest.Less(p.agg.maybeMax) then p.agg.maybeMax else t.greatest)
  }

  function SureLow(fp: Arith, t: Tally): real {
    fp.rnd(fp.rnd(t.sureLo) - fp.rnd(t.slack))
  }

  function SureHigh(fp: Arith, t: Tally): real {
    fp.rnd(fp.rnd(t.sureHi) + fp.rnd(t.slack))
  }

  /** x / n rounded, then one step down; n counts values. */
  function QuotientDown(fp: Arith, x: real, n: nat): real {
    fp.down(fp.rnd(Quotient(x, fp.rnd(n as real))))
  }

  function QuotientUp(fp: Arith, x: real, n: nat): real {
    Up(fp, fp.rnd(Quotient(x, fp.rnd(n as real))))
  }

  /** Division by a count, which is never 0 where it matters. */
  function Quotient(x: real, n: real): real {
    if n == 0.0 then 0.0 else x / n
  }

  /** _down(_down(sure_lo + _down(maybe * maybe_min)) / n) */
  function AllMaybeLow(fp: Arith, sureLow: real, sure: nat, maybe: nat, least: real): real {
    QuotientDown(fp, fp.down(fp.rnd(sureLow + fp.down(fp.rnd(Product(fp.rnd(maybe as real), least))))), sure + maybe)
  }

  function AllMaybeHigh(fp: Arith, sureHigh: real, sure: nat, maybe: nat, greatest: real): real {
    QuotientUp(fp, Up(fp, fp.rnd(sureHigh + Up(fp, fp.rnd(Product(fp.rnd(maybe as real), greatest))))), sure + maybe)
  }

  function Min(a: real, b: real): real {
    if b < a then b else a
  }

  function Max(a: real, b: real): real {
    if b > a then b else a
  }

  /** The extremes of the maybe values; real when there is one. */
  function Value(x: Ext): real {
    match x
    case Fin(r) => r
    case _ => 0.0
  }

  function MeanOf(fp: Arith, sureLow: real, sureHigh: real, sure: nat, maybe: nat, least: Ext, greatest: Ext): MeanBounds {
    if sure > 0 then
      var lo, hi := QuotientDown(fp, sureLow, sure), QuotientUp(fp, sureHigh, sure);
      if maybe > 0 then
        MeanBounds(Fin(Min(lo, AllMaybeLow(fp, sureLow, sure, maybe, Value(least)))),
                   Fin(Max(hi, AllMaybeHigh(fp, sureHigh, sure, maybe, Value(greatest)))))
      else MeanBounds(Fin(lo), Fin(hi))
    else if maybe > 0 then MeanBounds(least, greatest)
    else NoMean
  }

  function AnswerOf(fp: Arith, t: Tally): Answer {
    Answer(t.count, fp.rnd(t.total), t.sure, t.sure + t.maybe,
           fp.down(fp.rnd(SureLow(fp, t) + fp.rnd(t.neg))), Up(fp, fp.rnd(SureHigh(fp, t) + fp.rnd(t.pos))),
           MeanOf(fp, SureLow(fp, t), SureHigh(fp, t), t.sure, t.maybe, t.least, t.greatest))
  }

  function Combine(fp: Arith, parts: seq<Part>, valuesPerBlock: nat): Answer {
    AnswerOf(fp, TallyOf(fp, parts, valuesPerBlock))
  }

  // ---- the truth ----

  /** A sum, and the sum of the sizes of its terms. */
  datatype Sized = Sized(total: real, size: real)

  /** The decoded and the original values of one read that match: how many, and their sums. */
  datatype Truth = Truth(decoded: nat, count: nat, maybe: nat, sum: real, seen: Sized)

  function TruthOf(fp: Arith, its: seq<Item>, lo: Ext, hi: Ext): Truth {
    if its == [] then Truth(0, 0, 0, 0.0, Sized(0.0, 0.0))
    else
      AddTruth(fp, TruthOf(fp, its[..|its| - 1], lo, hi), its[|its| - 1], lo, hi)
  }

  function AddTruth(fp: Arith, t: Truth, it: Item, lo: Ext, hi: Ext): Truth {
    var m := Matches(it, lo, hi);
    Truth(if InRange(Fin(it.r), lo, hi) then t.decoded + 1 else t.decoded,
          if m then t.count + 1 else t.count,
          if m && !IsSure(fp, it, lo, hi) then t.maybe + 1 else t.maybe,
          if m then t.sum + it.orig else t.sum,
          if InRange(Fin(it.r), lo, hi) then Sized(t.seen.total + it.r, t.seen.size + Abs(it.r)) else t.seen)
  }

  function TruthOfAll(fp: Arith, groups: seq<seq<Item>>, lo: Ext, hi: Ext): Truth {
    if groups == [] then Truth(0, 0, 0, 0.0, Sized(0.0, 0.0))
    else
      JoinTruth(TruthOfAll(fp, groups[..|groups| - 1], lo, hi), TruthOf(fp, groups[|groups| - 1], lo, hi))
  }

  function JoinTruth(t: Truth, u: Truth): Truth {
    Truth(t.decoded + u.decoded, t.count + u.count, t.maybe + u.maybe, t.sum + u.sum, Sized(t.seen.total + u.seen.total, t.seen.size + u.seen.size))
  }

  /** What the running totals of a read say about its truth; k * least is written Times(k, least). */
  ghost predicate TruthBounded(a: Agg, t: Truth, l: Exact, h: Exact) {
    && a.recCount == t.decoded && t.count == a.sureCount + t.maybe && t.maybe <= a.maybeCount
    && l.sureTrue + l.maybeTrue == t.sum && h.sureTrue + h.maybeTrue == -t.sum
    && l.sureTrue == -h.sureTrue && (a.sureCount == 0 ==> l.sureTrue == 0.0)
    && (a.maybeCount > 0 ==> a.maybeMin.Fin? && a.maybeMax.Fin?)
    && (a.maybeCount == 0 ==> a.maybeMin == PosInf && a.maybeMax == NegInf && l.maybeTrue == 0.0 && h.maybeTrue == 0.0)
    && (a.maybeCount > 0 ==> l.maybeTrue >= Times(t.maybe, a.maybeMin.r) && h.maybeTrue >= Times(t.maybe, -a.maybeMax.r))
  }

  lemma {:induction false} RunBoundsTruth(fp: Arith, its: seq<Item>, lo: Ext, hi: Ext)
    requires Binary64(fp) && ValidItems(fp, its, lo, hi) && ValidBounds(fp, lo, hi)
    ensures TruthBounded(Run(fp, its, lo, hi), TruthOf(fp, its, lo, hi),
                         Totals(Terms(fp, its, lo, hi, true)), Totals(Terms(fp, its, lo, hi, false)))
  {
    if its != [] {
      var n := |its| - 1;
      RunBoundsTruth(fp, its[..n], lo, hi);
      TermsStep(fp, its, lo, hi, true);
      TermsStep(fp, its, lo, hi, false);
      var it := its[n];
      assert ValidItem(fp, it, lo, hi);
      TruthStep(fp, Run(fp, its[..n], lo, hi), TruthOf(fp, its[..n], lo, hi),
                Totals(Terms(fp, its[..n], lo, hi, true)), Totals(Terms(fp, its[..n], lo, hi, false)), it, lo, hi);
    }
  }

  lemma {:induction false} TruthStep(fp: Arith, a: Agg, t: Truth, l: Exact, h: Exact, it: Item, lo: Ext, hi: Ext)
    requires Binary64(fp) && ValidItem(fp, it, lo, hi) && ValidBounds(fp, lo, hi) && TruthBounded(a, t, l, h)
    ensures TruthBounded(AddItem(fp, a, it, lo, hi), AddTruth(fp, t, it, lo, hi),
                         AddExact(l, LowTerm(fp, it, lo, hi)), AddExact(h, HighTerm(fp, it, lo, hi)))
  {
    KindsAreRight(fp, it, lo, hi);
    if IsSure(fp, it, lo, hi) {
      SureStep(fp, a, t, l, h, it, lo, hi);
    } else if IsMaybe(fp, it, lo, hi) {
      MaybeStep(fp, a, t, l, h, it, lo, hi);
    } else {
      SkipStep(fp, a, t, l, h, it, lo, hi);
    }
  }

  lemma {:induction false} SureStep(fp: Arith, a: Agg, t: Truth, l: Exact, h: Exact, it: Item, lo: Ext, hi: Ext)
    requires ValidItem(fp, it, lo, hi) && TruthBounded(a, t, l, h) && IsSure(fp, it, lo, hi) && Matches(it, lo, hi)
    ensures TruthBounded(AddItem(fp, a, it, lo, hi), AddTruth(fp, t, it, lo, hi),
                         AddExact(l, LowTerm(fp, it, lo, hi)), AddExact(h, HighTerm(fp, it, lo, hi)))
  {
  }

  lemma {:induction false} SkipStep(fp: Arith, a: Agg, t: Truth, l: Exact, h: Exact, it: Item, lo: Ext, hi: Ext)
    requires ValidItem(fp, it, lo, hi) && TruthBounded(a, t, l, h)
    requires !IsSure(fp, it, lo, hi) && !IsMaybe(fp, it, lo, hi) && !Matches(it, lo, hi)
    ensures TruthBounded(AddItem(fp, a, it, lo, hi), AddTruth(fp, t, it, lo, hi),
                         AddExact(l, LowTerm(fp, it, lo, hi)), AddExact(h, HighTerm(fp, it, lo, hi)))
  {
  }

  lemma {:induction false} MaybeStep(fp: Arith, a: Agg, t: Truth, l: Exact, h: Exact, it: Item, lo: Ext, hi: Ext)
    requires ValidItem(fp, it, lo, hi) && TruthBounded(a, t, l, h)
    requires !IsSure(fp, it, lo, hi) && IsMaybe(fp, it, lo, hi)
    requires Matches(it, lo, hi) ==> LowEnd(fp, it, lo) <= it.orig <= HighEnd(fp, it, hi)
    ensures TruthBounded(AddItem(fp, a, it, lo, hi), AddTruth(fp, t, it, lo, hi),
                         AddExact(l, LowTerm(fp, it, lo, hi)), AddExact(h, HighTerm(fp, it, lo, hi)))
  {
    MaybeUpdate(a, t, l, h, AddItem(fp, a, it, lo, hi), AddTruth(fp, t, it, lo, hi),
                AddExact(l, LowTerm(fp, it, lo, hi)), AddExact(h, HighTerm(fp, it, lo, hi)),
                LowEnd(fp, it, lo), HighEnd(fp, it, hi), it.orig, Matches(it, lo, hi));
  }

  /** One more maybe value, with ends low and high and original x. */
  lemma {:induction false} MaybeUpdate(a: Agg, t: Truth, l: Exact, h: Exact, b: Agg, u: Truth, m: Exact, g: Exact,
                                       low: real, high: real, x: real, joins: bool)
    requires TruthBounded(a, t, l, h) && (joins ==> low <= x <= high)
    requires b.sureCount == a.sureCount && b.maybeCount == a.maybeCount + 1 && b.recCount == u.decoded
    requires b.maybeMin == if Fin(low).Less(a.maybeMin) then Fin(low) else a.maybeMin
    requires b.maybeMax == if a.maybeMax.Less(Fin(high)) then Fin(high) else a.maybeMax
    requires u.count == (if joins then t.count + 1 else t.count) && u.maybe == (if joins then t.maybe + 1 else t.maybe)
    requires u.sum == if joins then t.sum + x else t.sum
    requires m.sureTrue == l.sureTrue && m.maybeTrue == l.maybeTrue + if joins then x else 0.0
    requires g.sureTrue == h.sureTrue && g.maybeTrue == h.maybeTrue + if joins then -x else 0.0
    ensures TruthBounded(b, u, m, g)
  {
    assert b.maybeMin.Fin? && b.maybeMin.r <= low && b.maybeMax.Fin? && high <= b.maybeMax.r;
    ExtremeStep(t.maybe, l.maybeTrue, a.maybeCount > 0, Value(a.maybeMin), b.maybeMin.r, x, joins);
    ExtremeStep(t.maybe, h.maybeTrue, a.maybeCount > 0, -Value(a.maybeMax), -b.maybeMax.r, -x, joins);
  }

  /** k values of at least bound each sum to y; one more, x, may join them, and the bound
    * becomes next. */
  lemma {:induction false} ExtremeStep(k: nat, y: real, any: bool, bound: real, next: real, x: real, joins: bool)
    requires if any then y >= Times(k, bound) && next <= bound else k == 0 && y == 0.0
    requires joins ==> next <= x
    ensures if joins then y + x >= Times(k + 1, next) else y >= Times(k, next)
  {
    if any {
      TimesMonotone(k, next, bound);
    }
  }

  // ---- every read is covered by its slack ----

  ghost predicate ValidPart(fp: Arith, p: Part, its: seq<Item>, valuesPerBlock: nat, lo: Ext, hi: Ext) {
    && p.agg == Run(fp, its, lo, hi) && |its| == p.blocks * valuesPerBlock && 1 <= |its| <= MAX_TERMS
    && ValidItems(fp, its, lo, hi)
  }

  ghost predicate ValidParts(fp: Arith, parts: seq<Part>, groups: seq<seq<Item>>, valuesPerBlock: nat, lo: Ext, hi: Ext) {
    |parts| == |groups| && forall i :: 0 <= i < |parts| ==> ValidPart(fp, parts[i], groups[i], valuesPerBlock, lo, hi)
  }

  /** The total of the bounds is 0 or of float32 size, so the slack never underflows. */
  ghost predicate FloatSized(x: real) {
    x == 0.0 || x * 1427247692705959881058285969449495136382746624.0 >= 1.0
  }

  lemma {:induction false} SizeIsFloatSized(fp: Arith, it: Item, lo: Ext, hi: Ext)
    requires Binary64(fp) && ValidItem(fp, it, lo, hi)
    ensures FloatSized(Size(fp, it)) && Rep(fp, Size(fp, it)) && Size(fp, it) >= 0.0
  {
    RelativeError(fp, Abs(it.r) + it.eps);
    RoundedIsRep(fp, Abs(it.r) + it.eps);
  }

  /** So is the rounded total of float-sized bounds. */
  lemma {:induction false} TotalIsFloatSized(fp: Arith, ms: seq<Term>)
    requires Binary64(fp) && forall i :: 0 <= i < |ms| ==> FloatSized(ms[i].t) && Rep(fp, ms[i].t) && ms[i].t >= 0.0
    ensures var a := Accumulate(fp, ms).bound; FloatSized(a) && Rep(fp, a) && a >= 0.0
  {
    if ms == [] {
      ZeroIsRep(fp);
    } else {
      var n := |ms| - 1;
      TotalIsFloatSized(fp, ms[..n]);
      FloatSizedStep(fp, Accumulate(fp, ms[..n]).bound, ms[n].t);
    }
  }

  lemma {:induction false} FloatSizedStep(fp: Arith, a: real, t: real)
    requires Binary64(fp) && FloatSized(a) && FloatSized(t) && Rep(fp, a) && Rep(fp, t) && a >= 0.0 && t >= 0.0
    ensures var b := fp.rnd(a + t); FloatSized(b) && Rep(fp, b) && b >= 0.0
  {
    AboveDouble(fp, a, a + t);
    AboveDouble(fp, t, a + t);
    RoundedIsRep(fp, a + t);
    if a == 0.0 {
      assert a + t == t;
    }
  }

  function LowRead(fp: Arith, p: Part, its: seq<Item>, valuesPerBlock: nat, lo: Ext, hi: Ext): Read {
    var e := Totals(Terms(fp, its, lo, hi, true));
    Read(p.agg.sureLo, p.agg.maybeNeg, p.agg.absTotal, ReadSlack(fp, p.blocks * valuesPerBlock, p.agg.absTotal),
         e.sureTrue, e.maybeTrue)
  }

  function HighRead(fp: Arith, p: Part, its: seq<Item>, valuesPerBlock: nat, lo: Ext, hi: Ext): Read {
    var e := Totals(Terms(fp, its, lo, hi, false));
    Read(-p.agg.sureHi, -p.agg.maybePos, p.agg.absTotal, ReadSlack(fp, p.blocks * valuesPerBlock, p.agg.absTotal),
         e.sureTrue, e.maybeTrue)
  }

  lemma {:induction false} PartIsCovered(fp: Arith, p: Part, its: seq<Item>, valuesPerBlock: nat, lo: Ext, hi: Ext)
    requires Binary64(fp) && ValidBounds(fp, lo, hi) && ValidPart(fp, p, its, valuesPerBlock, lo, hi)
    ensures var r := LowRead(fp, p, its, valuesPerBlock, lo, hi);
            ReadCovered(fp, r.sure, r.maybe, r.bound, r.slack, r.ySure, r.yMaybe)
    ensures var r := HighRead(fp, p, its, valuesPerBlock, lo, hi);
            ReadCovered(fp, r.sure, r.maybe, r.bound, r.slack, r.ySure, r.yMaybe)
  {
    RunIsAccumulate(fp, its, lo, hi);
    SideIsCovered(fp, its, lo, hi, true);
    SideIsCovered(fp, its, lo, hi, false);
  }

  lemma {:induction false} SideIsCovered(fp: Arith, its: seq<Item>, lo: Ext, hi: Ext, low: bool)
    requires Binary64(fp) && ValidBounds(fp, lo, hi) && ValidItems(fp, its, lo, hi) && 1 <= |its| <= MAX_TERMS
    ensures var ms := Terms(fp, its, lo, hi, low);
            var s, e := Accumulate(fp, ms), Totals(ms);
            ReadCovered(fp, s.sure, s.maybe, s.bound, ReadSlack(fp, |its|, s.bound), e.sureTrue, e.maybeTrue)
  {
    var ms := Terms(fp, its, lo, hi, low);
    forall i | 0 <= i < |ms|
      ensures ValidTerm(fp, ms[i]) && FloatSized(ms[i].t) && Rep(fp, ms[i].t) && ms[i].t >= 0.0
    {
      assert ValidItem(fp, its[i], lo, hi);
      TermIsValid(fp, its[i], lo, hi);
      SizeIsFloatSized(fp, its[i], lo, hi);
      TermSize(fp, its[i], lo, hi);
    }
    TotalIsFloatSized(fp, ms);
    SlackCoversRead(fp, ms);
  }

  lemma {:induction false} TermSize(fp: Arith, it: Item, lo: Ext, hi: Ext)
    ensures LowTerm(fp, it, lo, hi).t == HighTerm(fp, it, lo, hi).t == Size(fp, it)
  {
  }

  // ---- all reads together ----

  function Reads(fp: Arith, parts: seq<Part>, groups: seq<seq<Item>>, vpb: nat, lo: Ext, hi: Ext, low: bool): (rs: seq<Read>)
    requires |parts| == |groups|
    ensures |rs| == |parts|
    ensures forall i :: 0 <= i < |rs| ==>
              rs[i] == if low then LowRead(fp, parts[i], groups[i], vpb, lo, hi) else HighRead(fp, parts[i], groups[i], vpb, lo, hi)
  {
    if parts == [] then []
    else
      var n := |parts| - 1;
      Reads(fp, parts[..n], groups[..n], vpb, lo, hi, low) +
      [if low then LowRead(fp, parts[n], groups[n], vpb, lo, hi) else HighRead(fp, parts[n], groups[n], vpb, lo, hi)]
  }

  /** The tally and the truth, side by side with the sums of the lower and the mirrored upper reads. */
  ghost predicate TallyAgrees(t: Tally, u: Truth, l: Joined, h: Joined) {
    && t.sureLo == l.sure && t.neg == l.maybe && t.slack == l.slack == h.slack
    && t.sureHi == -h.sure && t.pos == -h.maybe
    && t.count == u.decoded && u.count == t.sure + u.maybe && u.maybe <= t.maybe
    && l.ySure + l.yMaybe == u.sum && h.ySure + h.yMaybe == -u.sum && l.ySure == -h.ySure && (t.sure == 0 ==> l.ySure == 0.0)
    && (t.maybe > 0 ==> t.least.Fin? && t.greatest.Fin?)
    && (t.maybe == 0 ==> t.least == PosInf && t.greatest == NegInf && l.yMaybe == 0.0 && h.yMaybe == 0.0)
    && (t.maybe > 0 ==> l.yMaybe >= Times(u.maybe, t.least.r) && h.yMaybe >= Times(u.maybe, -t.greatest.r))
  }

  lemma {:induction false} TallyIsJoin(fp: Arith, parts: seq<Part>, groups: seq<seq<Item>>, vpb: nat, lo: Ext, hi: Ext)
    requires Binary64(fp) && ValidBounds(fp, lo, hi) && ValidParts(fp, parts, groups, vpb, lo, hi)
    ensures TallyAgrees(TallyOf(fp, parts, vpb), TruthOfAll(fp, groups, lo, hi),
                        Join(Reads(fp, parts, groups, vpb, lo, hi, true)), Join(Reads(fp, parts, groups, vpb, lo, hi, false)))
  {
    if parts != [] {
      var n := |parts| - 1;
      assert ValidPart(fp, parts[n], groups[n], vpb, lo, hi);
      TallyIsJoin(fp, parts[..n], groups[..n], vpb, lo, hi);
      RunBoundsTruth(fp, groups[n], lo, hi);
      ReadsStep(fp, parts, groups, vpb, lo, hi, true);
      ReadsStep(fp, parts, groups, vpb, lo, hi, false);
      TallyStep(fp, TallyOf(fp, parts[..n], vpb), TruthOfAll(fp, groups[..n], lo, hi),
                Join(Reads(fp, parts[..n], groups[..n], vpb, lo, hi, true)),
                Join(Reads(fp, parts[..n], groups[..n], vpb, lo, hi, false)),
                parts[n], vpb, TruthOf(fp, groups[n], lo, hi),
                LowRead(fp, parts[n], groups[n], vpb, lo, hi), HighRead(fp, parts[n], groups[n], vpb, lo, hi),
                Totals(Terms(fp, groups[n], lo, hi, true)), Totals(Terms(fp, groups[n], lo, hi, false)));
    }
  }

  lemma {:induction false} ReadsStep(fp: Arith, parts: seq<Part>, groups: seq<seq<Item>>, vpb: nat, lo: Ext, hi: Ext, low: bool)
    requires |parts| == |groups| && parts != []
    ensures var rs := Reads(fp, parts, groups, vpb, lo, hi, low);
            var n := |parts| - 1;
            && rs[..n] == Reads(fp, parts[..n], groups[..n], vpb, lo, hi, low)
            && rs[n] == if low then LowRead(fp, parts[n], groups[n], vpb, lo, hi) else HighRead(fp, parts[n], groups[n], vpb, lo, hi)
  {
  }

  /** j values of at least b each and k of at least c each, if there are any, are j + k of
    * at least next, which is below both. */
  lemma {:induction false} JoinBounds(j: nat, y: real, anyJ: bool, b: real, k: nat, z: real, anyK: bool, c: real, next: real)
    requires if anyJ then y >= Times(j, b) && next <= b else j == 0 && y == 0.0
    requires if anyK then z >= Times(k, c) && next <= c else k == 0 && z == 0.0
    ensures y + z >= Times(j + k, next)
  {
    TimesBoth(j, k, next);
    if anyJ { TimesMonotone(j, next, b); }
    if anyK { TimesMonotone(k, next, c); }
  }

  lemma {:induction false} TallyStep(fp: Arith, t: Tally, u: Truth, l: Joined, h: Joined, p: Part, vpb: nat, v: Truth,
                  lr: Read, hr: Read, le: Exact, he: Exact)
    requires TallyAgrees(t, u, l, h) && TruthBounded(p.agg, v, le, he)
    requires lr.sure == p.agg.sureLo && lr.maybe == p.agg.maybeNeg && lr.ySure == le.sureTrue && lr.yMaybe == le.maybeTrue
    requires hr.sure == -p.agg.sureHi && hr.maybe == -p.agg.maybePos && hr.ySure == he.sureTrue && hr.yMaybe == he.maybeTrue
    requires lr.slack == hr.slack == ReadSlack(fp, p.blocks * vpb, p.agg.absTotal)
    ensures TallyAgrees(AddPart(fp, t, p, vpb), JoinTruth(u, v), AddRead(l, lr), AddRead(h, hr))
  {
    TallyMaybe(t, u, l, h, p.agg, v, le, he, if p.agg.maybeMin.Less(t.least) then p.agg.maybeMin else t.least,
              if t.greatest.Less(p.agg.maybeMax) then p.agg.maybeMax else t.greatest);
  }

  /** The least and greatest maybe value bound the maybe originals of both. */
  lemma {:induction false} TallyMaybe(t: Tally, u: Truth, l: Joined, h: Joined, a: Agg, v: Truth, le: Exact, he: Exact, least: Ext, greatest: Ext)
    requires TallyAgrees(t, u, l, h) && TruthBounded(a, v, le, he)
    requires least == if a.maybeMin.Less(t.least) then a.maybeMin else t.least
    requires greatest == if t.greatest.Less(a.maybeMax) then a.maybeMax else t.greatest
    ensures t.maybe + a.maybeCount > 0 ==>
              && least.Fin? && l.yMaybe + le.maybeTrue >= Times(u.maybe + v.maybe, least.r)
              && greatest.Fin? && h.yMaybe + he.maybeTrue >= Times(u.maybe + v.maybe, -greatest.r)
    ensures t.maybe + a.maybeCount == 0 ==> least == PosInf && greatest == NegInf
  {
    if t.maybe + a.maybeCount > 0 {
      JoinBounds(u.maybe, l.yMaybe, t.maybe > 0, Value(t.least), v.maybe, le.maybeTrue, a.maybeCount > 0, Value(a.maybeMin), least.r);
      JoinBounds(u.maybe, h.yMaybe, t.maybe > 0, -Value(t.greatest), v.maybe, he.maybeTrue, a.maybeCount > 0, -Value(a.maybeMax), -greatest.r);
    }
  }

  lemma {:induction false} TimesBoth(j: nat, k: nat, b: real)
    ensures Times(j + k, b) == Times(j, b) + Times(k, b)
  {
    if k > 0 { TimesBoth(j, k - 1, b); }
  }

  // ---- the answer encloses the truth ----

  lemma {:induction false} ReadsAreCovered(fp: Arith, parts: seq<Part>, groups: seq<seq<Item>>, vpb: nat, lo: Ext, hi: Ext, low: bool)
    requires Binary64(fp) && ValidBounds(fp, lo, hi) && ValidParts(fp, parts, groups, vpb, lo, hi)
    ensures AllCovered(fp, Reads(fp, parts, groups, vpb, lo, hi, low))
  {
    var rs := Reads(fp, parts, groups, vpb, lo, hi, low);
    forall i | 0 <= i < |rs|
      ensures ReadCovered(fp, rs[i].sure, rs[i].maybe, rs[i].bound, rs[i].slack, rs[i].ySure, rs[i].yMaybe)
    {
      PartIsCovered(fp, parts[i], groups[i], vpb, lo, hi);
    }
  }

  /** sure_lo and sure_hi enclose what the sure originals add, and with the maybe sums
    * they enclose what all matching originals add. */
  ghost predicate SumsEnclose(fp: Arith, t: Tally, u: Truth, l: Joined) {
    && SureLow(fp, t) <= l.ySure <= SureHigh(fp, t)
    && SureLow(fp, t) + fp.rnd(t.neg) <= u.sum <= SureHigh(fp, t) + fp.rnd(t.pos)
  }

  lemma {:induction false} TallyEncloses(fp: Arith, t: Tally, u: Truth, l: Joined, h: Joined)
    requires Binary64(fp) && JoinCovered(fp, l) && JoinCovered(fp, h) && TallyAgrees(t, u, l, h)
    ensures SumsEnclose(fp, t, u, l)
  {
    SureLowIsBelow(fp, l);
    SureLowIsBelow(fp, h);
    Symmetric(fp, t.sureHi);
    Symmetric(fp, t.pos);
    Symmetric(fp, fp.rnd(t.sureHi) + fp.rnd(t.slack));
    assert fp.rnd(h.sure) - fp.rnd(h.slack) == -(fp.rnd(t.sureHi) + fp.rnd(t.slack));
  }

  /** Dividing and stepping outward keeps a bound. */
  lemma {:induction false} QuotientBounds(fp: Arith, x: real, n: nat)
    requires Binary64(fp) && 0 < n <= INT_MAX
    ensures QuotientDown(fp, x, n) <= x / n as real <= QuotientUp(fp, x, n)
  {
    IntIsRep(fp, n);
    DownIsBelow(fp, x / n as real);
    UpIsAbove(fp, x / n as real);
  }

  lemma {:induction false} DivideMonotone(x: real, y: real, n: nat)
    requires n > 0 && x <= y
    ensures x / n as real <= y / n as real
  {
    var p, q := x / n as real, y / n as real;
    assert p * n as real == x && q * n as real == y;
    if q < p {
      MulLess(q, p, n as real);
    }
  }

  lemma {:induction false} DivideNegated(x: real, n: real)
    requires n > 0.0
    ensures (-x) / n == -(x / n)
  {
  }

  /** The mean (s0 + k * b) / (s + k) is monotone in k: over k <= m it is at least the
    * smaller of its values at k = 0 and k = m. */
  lemma {:induction false} MeanIsMonotone(s0: real, s: nat, k: nat, m: nat, b: real)
    requires s > 0 && k <= m
    ensures (s0 + k as real * b) / (s + k) as real >= s0 / s as real
         || (s0 + k as real * b) / (s + k) as real >= (s0 + m as real * b) / (s + m) as real
  {
    if b >= s0 / s as real {
      MeanRises(s0, s, k, b);
    } else {
      MeanFalls(s0, s, k, m, b);
    }
  }

  lemma {:induction false} QuotientTimes(x: real, n: nat)
    requires n > 0
    ensures x / n as real * n as real == x
  {
  }

  lemma {:induction false} MeanRises(s0: real, s: nat, k: nat, b: real)
    requires s > 0 && b >= s0 / s as real
    ensures (s0 + k as real * b) / (s + k) as real >= s0 / s as real
  {
    var avg := s0 / s as real;
    QuotientTimes(s0, s);
    MulLe(avg, b, k as real);
    Distribute(s, k, avg);
    AtLeastQuotient(s0 + k as real * b, s + k, avg);
  }

  lemma {:induction false} MeanFalls(s0: real, s: nat, k: nat, m: nat, b: real)
    requires s > 0 && k <= m && b < s0 / s as real
    ensures (s0 + k as real * b) / (s + k) as real >= (s0 + m as real * b) / (s + m) as real
  {
    var end := (s0 + m as real * b) / (s + m) as real;
    EndTotal(s0, s, m, b, end);
    FromEnd(s0, s, k, m, b, end);
  }

  lemma {:induction false} EndTotal(s0: real, s: nat, m: nat, b: real, end: real)
    requires s > 0 && b < s0 / s as real && end == (s0 + m as real * b) / (s + m) as real
    ensures end * s as real + end * m as real == s0 + m as real * b && b <= end
  {
    QuotientTimes(s0, s);
    QuotientTimes(s0 + m as real * b, s + m);
    Distribute(s, m, end);
    EndIsAbove(s0, s, m, b, end, s0 / s as real);
  }

  lemma {:induction false} FromEnd(s0: real, s: nat, k: nat, m: nat, b: real, end: real)
    requires s > 0 && k <= m && end * s as real + end * m as real == s0 + m as real * b && b <= end
    ensures (s0 + k as real * b) / (s + k) as real >= end
  {
    Distribute(s, k, end);
    Falls(s0, end * s as real, m as real, k as real, b, end);
    AtLeastQuotient(s0 + k as real * b, s + k, end);
  }

  /** With fewer values of b, which is at most end, the total stays at least as far from end. */
  lemma {:induction false} Falls(s0: real, es: real, m: real, k: real, b: real, end: real)
    requires es + end * m == s0 + m * b && k <= m && b <= end
    ensures es + end * k <= s0 + k * b
  {
    MulLe(b, end, m - k);
    Split(m, k, b);
    Split(m, k, end);
  }

  lemma {:induction false} Distribute(s: nat, k: nat, b: real)
    ensures b * (s + k) as real == b * s as real + b * k as real
  {
  }

  lemma {:induction false} Split(m: real, k: real, b: real)
    ensures b * (m - k) == m * b - k * b
  {
  }

  /** Adding values below the average leaves an average above them. */
  lemma {:induction false} EndIsAbove(s0: real, s: nat, m: nat, b: real, end: real, avg: real)
    requires s > 0 && b < avg && avg * s as real == s0
    requires end * s as real + end * m as real == s0 + m as real * b
    ensures b <= end
  {
    if end < b {
      MulLe(end, b, m as real);
      MulLe(end, b, s as real);
      MulLess(b, avg, s as real);
    }
  }

  lemma {:induction false} MulLess(a: real, b: real, c: real)
    requires 0.0 < c && a < b
    ensures a * c < b * c
  {
  }

  lemma {:induction false} AtLeastQuotient(x: real, n: nat, c: real)
    requires n > 0 && c * n as real <= x
    ensures c <= x / n as real
  {
    QuotientTimes(x, n);
    if x / n as real < c {
      MulLess(x / n as real, c, n as real);
    }
  }

  /** The all-maybe bound is at most the mean with every maybe value at its least. */
  lemma {:induction false} AllMaybeIsBelow(fp: Arith, s0: real, s: nat, m: nat, b: real)
    requires Binary64(fp) && s > 0 && s + m <= INT_MAX
    ensures AllMaybeLow(fp, s0, s, m, b) <= (s0 + m as real * b) / (s + m) as real
  {
    IntIsRep(fp, m);
    var p := Product(fp.rnd(m as real), b);
    assert p == m as real * b;
    SumIsBelow(fp, s0, p, fp.down(fp.rnd(s0 + fp.down(fp.rnd(p)))), s + m);
  }

  /** x is s0 + p rounded down twice. */
  lemma {:induction false} SumIsBelow(fp: Arith, s0: real, p: real, x: real, n: nat)
    requires Binary64(fp) && 0 < n <= INT_MAX && x == fp.down(fp.rnd(s0 + fp.down(fp.rnd(p))))
    ensures QuotientDown(fp, x, n) <= (s0 + p) / n as real
  {
    DownIsBelow(fp, p);
    DownIsBelow(fp, s0 + fp.down(fp.rnd(p)));
    QuotientBounds(fp, x, n);
    DivideMonotone(x, s0 + p, n);
  }

  /** The upper bound is the mirror image. */
  lemma {:induction false} AllMaybeMirrors(fp: Arith, s0: real, s: nat, m: nat, b: real)
    requires Binary64(fp) && s > 0 && s + m <= INT_MAX
    ensures AllMaybeHigh(fp, s0, s, m, b) == -AllMaybeLow(fp, -s0, s, m, -b)
  {
    IntIsRep(fp, m);
    var p := m as real * b;
    assert Product(m as real, -b) == -p;
    Symmetric(fp, p);
    var q := Up(fp, fp.rnd(p));
    Symmetric(fp, s0 + q);
    assert -s0 + -q == -(s0 + q);
    QuotientMirrors(fp, Up(fp, fp.rnd(s0 + q)), s + m);
  }

  lemma {:induction false} QuotientMirrors(fp: Arith, x: real, n: nat)
    requires Binary64(fp) && 0 < n <= INT_MAX
    ensures QuotientUp(fp, x, n) == -QuotientDown(fp, -x, n)
  {
    IntIsRep(fp, n);
    DivideNegated(x, n as real);
    Symmetric(fp, x / n as real);
  }

  /** A lower bound of the mean of the matching originals: s of them sum to at least
    * sureLow, and k more to at least k * least. */
  lemma {:induction false} LowMean(fp: Arith, sureLow: real, sure: nat, maybe: nat, least: real, k: nat, sum: real)
    requires Binary64(fp) && sure > 0 && sure + maybe <= INT_MAX && k <= maybe
    requires sum >= sureLow + Times(k, least)
    ensures Min(QuotientDown(fp, sureLow, sure), AllMaybeLow(fp, sureLow, sure, maybe, least)) <= sum / (sure + k) as real
  {
    TimesIs(k, least);
    MeanIsMonotone(sureLow, sure, k, maybe, least);
    AllMaybeIsBelow(fp, sureLow, sure, maybe, least);
    QuotientBounds(fp, sureLow, sure);
    DivideMonotone(sureLow + k as real * least, sum, sure + k);
  }

  lemma {:induction false} MaybeMean(k: nat, least: real, sum: real)
    requires k > 0 && sum >= Times(k, least)
    ensures least <= sum / k as real
  {
    TimesIs(k, least);
    AtLeastQuotient(sum, k, least);
  }

  /** Without maybe values the mean is bounded by the sure sum alone. */
  lemma {:induction false} SureMean(fp: Arith, sureLow: real, sure: nat, sum: real)
    requires Binary64(fp) && 0 < sure <= INT_MAX && sureLow <= sum
    ensures QuotientDown(fp, sureLow, sure) <= sum / sure as real
  {
    QuotientBounds(fp, sureLow, sure);
    DivideMonotone(sureLow, sum, sure);
  }

  ghost predicate MeanEnclosed(m: MeanBounds, u: Truth) {
    if u.count == 0 then true
    else m.MeanBounds? && m.low.AtMost(Fin(u.sum / u.count as real)) && Fin(u.sum / u.count as real).AtMost(m.high)
  }

  lemma {:induction false} MeanEncloses(fp: Arith, sureLow: real, sureHigh: real, t: Tally, u: Truth, l: Joined, h: Joined)
    requires Binary64(fp) && TallyAgrees(t, u, l, h) && t.sure + t.maybe <= INT_MAX
    requires sureLow <= l.ySure <= sureHigh
    ensures MeanEnclosed(MeanOf(fp, sureLow, sureHigh, t.sure, t.maybe, t.least, t.greatest), u)
  {
    if t.sure > 0 && t.maybe > 0 {
      BothEncloses(fp, sureLow, sureHigh, t, u, l, h);
    } else if t.sure > 0 {
      SureEncloses(fp, sureLow, sureHigh, t, u, l, h);
    } else {
      MaybeEncloses(fp, sureLow, sureHigh, t, u, l, h);
    }
  }

  lemma {:induction false} BothEncloses(fp: Arith, sureLow: real, sureHigh: real, t: Tally, u: Truth, l: Joined, h: Joined)
    requires Binary64(fp) && TallyAgrees(t, u, l, h) && t.sure + t.maybe <= INT_MAX
    requires sureLow <= l.ySure <= sureHigh && t.sure > 0 && t.maybe > 0
    ensures MeanEnclosed(MeanOf(fp, sureLow, sureHigh, t.sure, t.maybe, t.least, t.greatest), u)
  {
    BothMeans(fp, sureLow, sureHigh, t.sure, t.maybe, t.least.r, t.greatest.r, u.maybe, u.sum, l, h);
  }

  lemma {:induction false} SureEncloses(fp: Arith, sureLow: real, sureHigh: real, t: Tally, u: Truth, l: Joined, h: Joined)
    requires Binary64(fp) && TallyAgrees(t, u, l, h) && t.sure + t.maybe <= INT_MAX
    requires sureLow <= l.ySure <= sureHigh && t.sure > 0 && t.maybe == 0
    ensures MeanEnclosed(MeanOf(fp, sureLow, sureHigh, t.sure, t.maybe, t.least, t.greatest), u)
  {
    SureMeans(fp, sureLow, sureHigh, t.sure, u.sum);
  }

  lemma {:induction false} MaybeEncloses(fp: Arith, sureLow: real, sureHigh: real, t: Tally, u: Truth, l: Joined, h: Joined)
    requires Binary64(fp) && TallyAgrees(t, u, l, h) && t.sure + t.maybe <= INT_MAX
    requires sureLow <= l.ySure <= sureHigh && t.sure == 0
    ensures MeanEnclosed(MeanOf(fp, sureLow, sureHigh, t.sure, t.maybe, t.least, t.greatest), u)
  {
    if u.count > 0 {
      MaybeMeans(u.maybe, t.least.r, t.greatest.r, u.sum);
    }
  }

  lemma {:induction false} SureMeans(fp: Arith, sureLow: real, sureHigh: real, sure: nat, sum: real)
    requires Binary64(fp) && 0 < sure <= INT_MAX && sureLow <= sum <= sureHigh
    ensures QuotientDown(fp, sureLow, sure) <= sum / sure as real <= QuotientUp(fp, sureHigh, sure)
  {
    SureMean(fp, sureLow, sure, sum);
    SureMean(fp, -sureHigh, sure, -sum);
    QuotientMirrors(fp, sureHigh, sure);
    DivideNegated(sum, sure as real);
  }

  lemma {:induction false} MaybeMeans(k: nat, least: real, greatest: real, sum: real)
    requires k > 0 && sum >= Times(k, least) && -sum >= Times(k, -greatest)
    ensures least <= sum / k as real <= greatest
  {
    MaybeMean(k, least, sum);
    MaybeMean(k, -greatest, -sum);
    DivideNegated(sum, k as real);
  }

  lemma {:induction false} BothMeans(fp: Arith, sureLow: real, sureHigh: real, sure: nat, maybe: nat, least: real, greatest: real, k: nat,
                  sum: real, l: Joined, h: Joined)
    requires Binary64(fp) && sure > 0 && sure + maybe <= INT_MAX && k <= maybe
    requires sureLow <= l.ySure <= sureHigh && l.ySure == -h.ySure
    requires l.ySure + l.yMaybe == sum && h.ySure + h.yMaybe == -sum
    requires l.yMaybe >= Times(k, least) && h.yMaybe >= Times(k, -greatest)
    ensures Min(QuotientDown(fp, sureLow, sure), AllMaybeLow(fp, sureLow, sure, maybe, least)) <= sum / (sure + k) as real
    ensures sum / (sure + k) as real <= Max(QuotientUp(fp, sureHigh, sure), AllMaybeHigh(fp, sureHigh, sure, maybe, greatest))
  {
    LowMean(fp, sureLow, sure, maybe, least, k, sum);
    LowMean(fp, -sureHigh, sure, maybe, -greatest, k, -sum);
    QuotientMirrors(fp, sureHigh, sure);
    AllMaybeMirrors(fp, sureHigh, sure, maybe, greatest);
    DivideNegated(sum, (sure + k) as real);
  }

  // ---- the sum of the decoded values ----

  ghost predicate SumsDecoded(u: Truth, e: Exact) {
    u.seen.total == e.sure && u.seen.size == e.sureBound
  }

  lemma {:induction false} TruthSumsDecoded(fp: Arith, its: seq<Item>, lo: Ext, hi: Ext)
    ensures SumsDecoded(TruthOf(fp, its, lo, hi), Totals(DecodedTerms(its, lo, hi)))
  {
    if its != [] {
      var n := |its| - 1;
      TruthSumsDecoded(fp, its[..n], lo, hi);
      var ms := DecodedTerms(its, lo, hi);
      assert ms[..n] == DecodedTerms(its[..n], lo, hi);
      SumsDecodedStep(fp, TruthOf(fp, its[..n], lo, hi), Totals(ms[..n]), its[n], lo, hi);
    }
  }

  lemma {:induction false} SumsDecodedStep(fp: Arith, u: Truth, e: Exact, it: Item, lo: Ext, hi: Ext)
    requires SumsDecoded(u, e)
    ensures SumsDecoded(AddTruth(fp, u, it, lo, hi), AddExact(e, DecodedTerm(it, lo, hi)))
  {
  }

  /** The exact total of the reads' decoded sums, next to the truth. */
  ghost predicate TotalDrifts(fp: Arith, t: Tally, u: Truth, n: nat) {
    Multiple(fp, t.total) && Drift(t.total - u.seen.total, n, u.seen.size) && Abs(u.seen.total) <= u.seen.size
  }

  lemma {:induction false} TallyDrifts(fp: Arith, parts: seq<Part>, groups: seq<seq<Item>>, vpb: nat, lo: Ext, hi: Ext, n: nat)
    requires Binary64(fp) && ValidParts(fp, parts, groups, vpb, lo, hi) && forall i :: 0 <= i < |groups| ==> |groups[i]| <= n
    ensures TotalDrifts(fp, TallyOf(fp, parts, vpb), TruthOfAll(fp, groups, lo, hi), n)
  {
    if parts == [] {
      MultipleZero(fp);
      TimesMore(0, n, 0.0);
    } else {
      var k := |parts| - 1;
      assert ValidPart(fp, parts[k], groups[k], vpb, lo, hi);
      TallyDrifts(fp, parts[..k], groups[..k], vpb, lo, hi, n);
      DecodedDrift(fp, groups[k], lo, hi);
      TruthSumsDecoded(fp, groups[k], lo, hi);
      DriftStep(fp, TallyOf(fp, parts[..k], vpb), TruthOfAll(fp, groups[..k], lo, hi), parts[k], vpb, TruthOf(fp, groups[k], lo, hi), |groups[k]|, n);
    }
  }

  lemma {:induction false} DriftStep(fp: Arith, t: Tally, u: Truth, p: Part, vpb: nat, v: Truth, k: nat, n: nat)
    requires TotalDrifts(fp, t, u, n) && Binary64(fp) && Rep(fp, p.agg.recSum) && k <= n
    requires Drift(p.agg.recSum - v.seen.total, k, v.seen.size) && Abs(v.seen.total) <= v.seen.size
    ensures TotalDrifts(fp, AddPart(fp, t, p, vpb), JoinTruth(u, v), n)
  {
    RepIsMultiple(fp, p.agg.recSum);
    MultipleSum(fp, t.total, p.agg.recSum);
    TimesMore(k, n, v.seen.size);
    TimesSum(n, u.seen.size, v.seen.size);
  }

  /** For reads of at most n values, the sum of the matching decoded values is off by at most
    * (n + 2) * 2^-53 * (1 + 2^-28) of the sum of their sizes. */
  lemma {:induction false} TotalIsNear(fp: Arith, parts: seq<Part>, groups: seq<seq<Item>>, vpb: nat, lo: Ext, hi: Ext, n: nat)
    requires Binary64(fp) && ValidParts(fp, parts, groups, vpb, lo, hi) && n <= MAX_TERMS && forall i :: 0 <= i < |groups| ==> |groups[i]| <= n
    ensures var u := TruthOfAll(fp, groups, lo, hi); Drift(Combine(fp, parts, vpb).total - u.seen.total, n + 2, u.seen.size)
  {
    TallyDrifts(fp, parts, groups, vpb, lo, hi, n);
    TotalRounded(fp, TallyOf(fp, parts, vpb), TruthOfAll(fp, groups, lo, hi), n);
  }

  lemma {:induction false} TotalRounded(fp: Arith, t: Tally, u: Truth, n: nat)
    requires Binary64(fp) && TotalDrifts(fp, t, u, n) && n <= MAX_TERMS
    ensures Drift(fp.rnd(t.total) - u.seen.total, n + 2, u.seen.size)
  {
    MultipleError(fp, t.total);
    TimesSmall(n, u.seen.size);
    assert Times(n + 1, u.seen.size) == Times(n, u.seen.size) + u.seen.size;
    assert Times(n + 2, u.seen.size) == Times(n + 1, u.seen.size) + u.seen.size;
    RoundedDrift(fp.rnd(t.total), t.total, u.seen.total, u.seen.size, Times(n, u.seen.size));
  }

  lemma {:induction false} RoundedDrift(r: real, x: real, y: real, size: real, p: real)
    requires Near(r, x) && 0.0 <= p <= 16777216.0 * size && Abs(y) <= size
    requires Abs(x - y) * 2417851639229258349412352.0 <= p * 268435457.0
    ensures Abs(r - y) * 2417851639229258349412352.0 <= (p + 2.0 * size) * 268435457.0
  {
    assert Abs(x - y) * 8.0 <= size;
    assert Abs(x) <= 2.0 * size;
    assert Abs(x) * 268435456.0 <= size * 268435457.0;
  }

  /** For reads of at most 2^24 values that is less than 2^-28. */
  lemma {:induction false} TotalIsClose(fp: Arith, parts: seq<Part>, groups: seq<seq<Item>>, vpb: nat, lo: Ext, hi: Ext)
    requires Binary64(fp) && ValidParts(fp, parts, groups, vpb, lo, hi)
    ensures IsClose(Combine(fp, parts, vpb).total, TruthOfAll(fp, groups, lo, hi))
  {
    forall i | 0 <= i < |groups| ensures |groups[i]| <= MAX_TERMS {
      assert ValidPart(fp, parts[i], groups[i], vpb, lo, hi);
    }
    TotalIsNear(fp, parts, groups, vpb, lo, hi, MAX_TERMS);
    var u := TruthOfAll(fp, groups, lo, hi);
    TallyDrifts(fp, parts, groups, vpb, lo, hi, MAX_TERMS);
    DriftIsClose(Combine(fp, parts, vpb).total, u);
  }

  lemma {:induction false} DriftIsClose(total: real, u: Truth)
    requires Drift(total - u.seen.total, MAX_TERMS + 2, u.seen.size) && u.seen.size >= 0.0
    ensures IsClose(total, u)
  {
    TimesIs(MAX_TERMS + 2, u.seen.size);
  }

  ghost predicate IsClose(total: real, u: Truth) {
    Abs(total - u.seen.total) * 268435456.0 <= u.seen.size
  }

  ghost predicate Encloses(a: Answer, u: Truth) {
    && a.count == u.decoded && IsClose(a.total, u)
    && a.countLow <= u.count <= a.countHigh
    && a.sumLow <= u.sum <= a.sumHigh
    && (a.countHigh <= INT_MAX ==> MeanEnclosed(a.mean, u))
  }

  /** The answer drawn from a tally. */
  lemma {:induction false} AnswerEncloses(fp: Arith, t: Tally, u: Truth, l: Joined, h: Joined)
    requires Binary64(fp) && JoinCovered(fp, l) && JoinCovered(fp, h) && TallyAgrees(t, u, l, h) && IsClose(fp.rnd(t.total), u)
    ensures Encloses(AnswerOf(fp, t), u)
  {
    TallyEncloses(fp, t, u, l, h);
    DownIsBelow(fp, SureLow(fp, t) + fp.rnd(t.neg));
    UpIsAbove(fp, SureHigh(fp, t) + fp.rnd(t.pos));
    if t.sure + t.maybe <= INT_MAX {
      MeanEncloses(fp, SureLow(fp, t), SureHigh(fp, t), t, u, l, h);
    }
  }

  /** For reads of at most 2^24 values each: the count is that of the decoded values that
    * match, and the count, the sum and the mean of the matching originals lie in the
    * returned intervals, rounding and all. */
  lemma {:induction false} CombineEnclosesTruth(fp: Arith, parts: seq<Part>, groups: seq<seq<Item>>, vpb: nat, lo: Ext, hi: Ext)
    requires Binary64(fp) && ValidBounds(fp, lo, hi) && ValidParts(fp, parts, groups, vpb, lo, hi)
    ensures Encloses(Combine(fp, parts, vpb), TruthOfAll(fp, groups, lo, hi))
  {
    ReadsAreCovered(fp, parts, groups, vpb, lo, hi, true);
    ReadsAreCovered(fp, parts, groups, vpb, lo, hi, false);
    JoinIsCovered(fp, Reads(fp, parts, groups, vpb, lo, hi, true));
    JoinIsCovered(fp, Reads(fp, parts, groups, vpb, lo, hi, false));
    TallyIsJoin(fp, parts, groups, vpb, lo, hi);
    TotalIsClose(fp, parts, groups, vpb, lo, hi);
    AnswerEncloses(fp, TallyOf(fp, parts, vpb), TruthOfAll(fp, groups, lo, hi),
                   Join(Reads(fp, parts, groups, vpb, lo, hi, true)), Join(Reads(fp, parts, groups, vpb, lo, hi, false)));
  }
}
