/** stage2: bounds on the count and the mean of the original values above a threshold,
  * from decoded values and an error bound for each. The two comparisons that sort the values
  * are rounded; sums and quotients are exact. */
module FilteredMean {
  import opened Rounding
  import opened Summation
  import Slack
  import Intervals
  import Ieee
  import Float32

  /** An original value, its decoded value and error bound. */
  datatype Sample = Sample(o: real, r: real, e: real)

  ghost predicate ValidSample(fp: Arith, x: Sample) {
    Rep(fp, x.r) && x.r - x.e <= x.o <= x.r + x.e
  }

  ghost predicate ValidSamples(fp: Arith, xs: seq<Sample>) {
    forall i {:trigger ValidSample(fp, xs[i])} :: 0 <= i < |xs| ==> ValidSample(fp, xs[i])
  }

  predicate Certain(fp: Arith, x: Sample, th: real) { x.r > fp.rnd(th + x.e) }
  predicate Ambiguous(fp: Arith, x: Sample, th: real) { x.r > fp.rnd(th - x.e) && !Certain(fp, x, th) }
  predicate Matches(x: Sample, th: real) { x.o > th }

  /** The running totals over the slabs. */
  datatype SlabTotals = SlabTotals(nc: nat, na: nat, certLow: real, certHigh: real, ups: seq<real>)

  function AddSample(fp: Arith, t: SlabTotals, x: Sample, th: real): SlabTotals {
    if Certain(fp, x, th) then t.(nc := t.nc + 1, certLow := t.certLow + (x.r - x.e), certHigh := t.certHigh + (x.r + x.e))
    else if Ambiguous(fp, x, th) then t.(na := t.na + 1, ups := t.ups + [x.r + x.e])
    else t
  }

  function TotalsOf(fp: Arith, xs: seq<Sample>, th: real, n: nat): SlabTotals
    requires n <= |xs|
  {
    if n == 0 then SlabTotals(0, 0, 0.0, 0.0, []) else AddSample(fp, TotalsOf(fp, xs, th, n - 1), xs[n - 1], th)
  }

  /** The truth: the matching originals and their sum, the sum of the certain ones, the
    * ambiguous ones, and how many are neither. */
  datatype Truth = Truth(count: nat, sum: real, certSum: real, picked: seq<real>, pickedSum: real, missed: nat)

  function AddTruth(fp: Arith, u: Truth, x: Sample, th: real): Truth {
    if !Matches(x, th) then u
    else
      var v := u.(count := u.count + 1, sum := u.sum + x.o);
      if Certain(fp, x, th) then v.(certSum := u.certSum + x.o)
      else if Ambiguous(fp, x, th) then v.(picked := u.picked + [x.r + x.e], pickedSum := u.pickedSum + x.o)
      else v.(missed := u.missed + 1)
  }

  function TruthOf(fp: Arith, xs: seq<Sample>, th: real, n: nat): Truth
    requires n <= |xs|
  {
    if n == 0 then Truth(0, 0.0, 0.0, [], 0.0, 0) else AddTruth(fp, TruthOf(fp, xs, th, n - 1), xs[n - 1], th)
  }

  function Sum(v: seq<real>, n: nat): real
    requires n <= |v|
  {
    if n == 0 then 0.0 else Sum(v, n - 1) + v[n - 1]
  }

  // ---- what the comparisons decide ----

  /** A decoded value above a rounded bound is above the bound. */
  lemma {:induction false} AboveRounded(fp: Arith, r: real, y: real)
    requires Binary64(fp) && Rep(fp, r) && r > fp.rnd(y)
    ensures r > y
  {
    if r <= y { AboveDouble(fp, r, y); }
  }

  lemma {:induction false} CertainIsAbove(fp: Arith, x: Sample, th: real)
    requires Binary64(fp) && ValidSample(fp, x) && Certain(fp, x, th)
    ensures x.r - x.e > th && Matches(x, th)
  {
    AboveRounded(fp, x.r, th + x.e);
  }

  /** The value could exceed the threshold, but th - e was rounded up to it or past it. */
  predicate Gap(fp: Arith, x: Sample, th: real) {
    th - x.e < x.r <= fp.rnd(th - x.e)
  }

  ghost predicate NoGap(fp: Arith, xs: seq<Sample>, th: real) {
    forall i :: 0 <= i < |xs| ==> !Gap(fp, xs[i], th)
  }

  /** Whatever is neither certain nor ambiguous has r <= rnd(th - e), and matches only in a gap. */
  lemma {:induction false} MissedIsGap(fp: Arith, x: Sample, th: real)
    requires Binary64(fp) && ValidSample(fp, x)
    ensures !Certain(fp, x, th) && !Ambiguous(fp, x, th) <==> x.r <= fp.rnd(th - x.e)
    ensures Matches(x, th) && x.r <= fp.rnd(th - x.e) ==> Gap(fp, x, th)
  {
    Monotone(fp, th - x.e, th + x.e);
  }

  // ---- what the totals say about the truth ----

  ghost predicate Agrees(t: SlabTotals, u: Truth, th: real) {
    SumsAgree(t, u, th) && multiset(u.picked) <= multiset(t.ups)
  }

  ghost predicate SumsAgree(t: SlabTotals, u: Truth, th: real) {
    && t.na == |t.ups| && u.count == t.nc + |u.picked| + u.missed && (u.missed == 0 ==> u.sum == u.certSum + u.pickedSum)
    && t.certLow <= u.certSum <= t.certHigh && t.certLow >= Times(t.nc, th) && (t.nc == 0 ==> u.certSum == 0.0)
    && Times(|u.picked|, th) <= u.pickedSum <= Sum(u.picked, |u.picked|)
  }

  lemma {:induction false} TotalsAgree(fp: Arith, xs: seq<Sample>, th: real, n: nat)
    requires Binary64(fp) && ValidSamples(fp, xs) && n <= |xs|
    ensures Agrees(TotalsOf(fp, xs, th, n), TruthOf(fp, xs, th, n), th)
  {
    if n > 0 {
      TotalsAgree(fp, xs, th, n - 1);
      AgreesStep(fp, TotalsOf(fp, xs, th, n - 1), TruthOf(fp, xs, th, n - 1), xs[n - 1], th);
    }
  }

  lemma {:induction false} AgreesStep(fp: Arith, t: SlabTotals, u: Truth, x: Sample, th: real)
    requires Binary64(fp) && Agrees(t, u, th) && ValidSample(fp, x)
    ensures Agrees(AddSample(fp, t, x, th), AddTruth(fp, u, x, th), th)
  {
    if Certain(fp, x, th) {
      CertainIsAbove(fp, x, th);
    } else if Ambiguous(fp, x, th) {
      AmbiguousStep(fp, t, u, x, th);
    }
  }

  lemma {:induction false} AmbiguousStep(fp: Arith, t: SlabTotals, u: Truth, x: Sample, th: real)
    requires Agrees(t, u, th) && x.o <= x.r + x.e && !Certain(fp, x, th) && Ambiguous(fp, x, th)
    ensures Agrees(AddSample(fp, t, x, th), AddTruth(fp, u, x, th), th)
  {
    Both(u.picked, t.ups, x.r + x.e);
    if Matches(x, th) {
      Pick(fp, t, u, x, th);
    }
  }

  lemma {:induction false} Pick(fp: Arith, t: SlabTotals, u: Truth, x: Sample, th: real)
    requires SumsAgree(t, u, th) && x.o <= x.r + x.e && !Certain(fp, x, th) && Ambiguous(fp, x, th) && Matches(x, th)
    ensures SumsAgree(AddSample(fp, t, x, th), AddTruth(fp, u, x, th), th)
  {
    SumMore(u.picked, x.r + x.e);
    assert Times(|u.picked| + 1, th) == Times(|u.picked|, th) + th;
  }

  lemma {:induction false} NothingMissed(fp: Arith, xs: seq<Sample>, th: real, n: nat)
    requires Binary64(fp) && ValidSamples(fp, xs) && NoGap(fp, xs, th) && n <= |xs|
    ensures TruthOf(fp, xs, th, n).missed == 0
  {
    if n > 0 {
      NothingMissed(fp, xs, th, n - 1);
      MissedIsGap(fp, xs[n - 1], th);
    }
  }

  lemma {:induction false} Both(a: seq<real>, b: seq<real>, x: real)
    requires multiset(a) <= multiset(b)
    ensures multiset(a + [x]) <= multiset(b + [x]) && multiset(a) <= multiset(b + [x])
  {
  }

  lemma {:induction false} OneMore(n: nat, th: real)
    ensures (n + 1) as real * th == n as real * th + th
  {
  }

  lemma {:induction false} SumMore(v: seq<real>, x: real)
    ensures Sum(v + [x], |v| + 1) == Sum(v, |v|) + x
  {
    SumPrefix(v, v + [x], |v|);
  }

  lemma {:induction false} SumPrefix(a: seq<real>, b: seq<real>, n: nat)
    requires n <= |a| && a <= b
    ensures Sum(a, n) == Sum(b, n)
  {
    if n > 0 { SumPrefix(a, b, n - 1); }
  }

  // ---- any choice of ambiguous values is dominated by the largest ones ----

  ghost predicate Descending(s: seq<real>) {
    forall i, j :: 0 <= i <= j < |s| ==> s[i] >= s[j]
  }

  lemma {:induction false} SumWithout(v: seq<real>, j: nat, n: nat)
    requires j < n <= |v|
    ensures Sum(v, n) == Sum(v[..j] + v[j + 1..], n - 1) + v[j]
    decreases n
  {
    var w := v[..j] + v[j + 1..];
    if j == n - 1 {
      SumPrefix(v[..j], v, j);
      SumPrefix(v[..j], w, j);
    } else {
      SumWithout(v, j, n - 1);
      assert w[n - 2] == v[n - 1];
    }
  }

  lemma {:induction false} RemoveOne(c: seq<real>, j: nat)
    requires j < |c|
    ensures multiset(c[..j] + c[j + 1..]) == multiset(c) - multiset{c[j]}
  {
    assert c == c[..j] + [c[j]] + c[j + 1..];
  }

  /** Values among front and x are among front, once an x among them is put aside. */
  lemma {:induction false} AsideLast(c: multiset<real>, front: multiset<real>, x: real)
    requires c <= front + multiset{x}
    ensures if x in c then c - multiset{x} <= front else c <= front
  {
  }

  lemma {:induction false} SubSize(c: seq<real>, s: seq<real>)
    requires multiset(c) <= multiset(s)
    ensures |c| <= |s|
  {
    assert multiset(s) == multiset(c) + (multiset(s) - multiset(c));
    assert |multiset(s)| == |multiset(c)| + |multiset(s) - multiset(c)|;
  }

  /** The exchange argument: k of the values sum to at most the k largest. */
  lemma {:induction false} LargestDominate(s: seq<real>, c: seq<real>)
    requires Descending(s) && multiset(c) <= multiset(s)
    ensures |c| <= |s| && Sum(c, |c|) <= Sum(s, |c|)
    decreases |s|, 1
  {
    SubSize(c, s);
    if s != [] {
      var n := |s| - 1;
      assert s == s[..n] + [s[n]];
      AsideLast(multiset(c), multiset(s[..n]), s[n]);
      if s[n] !in multiset(c) {
        LargestDominate(s[..n], c);
        SumPrefix(s[..n], s, |c|);
      } else {
        var j :| 0 <= j < |c| && c[j] == s[n];
        ExchangeLast(s, c, n, j);
      }
    }
  }

  lemma {:induction false} ExchangeLast(s: seq<real>, c: seq<real>, n: nat, j: nat)
    requires Descending(s) && n == |s| - 1 && j < |c| <= |s| && c[j] == s[n] && multiset(c) - multiset{s[n]} <= multiset(s[..n])
    ensures Sum(c, |c|) <= Sum(s, |c|)
    decreases |s|, 0
  {
    var d := c[..j] + c[j + 1..];
    RemoveOne(c, j);
    LargestDominate(s[..n], d);
    SumWithout(c, j, |c|);
    SumPrefix(s[..n], s, |d|);
    assert s[|d|] >= s[n];
  }

  // ---- the interval ----

  /** max over k of (certHigh + the k largest) / (nc + k), k = 1..m, with the value at k = 0 first. */
  function BestMean(certHigh: real, nc: nat, up: seq<real>, m: nat): real
    requires nc > 0 && m <= |up|
  {
    if m == 0 then certHigh / nc as real
    else Intervals.Max(BestMean(certHigh, nc, up, m - 1), (certHigh + Sum(up, m)) / (nc + m) as real)
  }

  lemma {:induction false} BestIsBest(certHigh: real, nc: nat, up: seq<real>, m: nat, k: nat)
    requires nc > 0 && k <= m <= |up|
    ensures (certHigh + Sum(up, k)) / (nc + k) as real <= BestMean(certHigh, nc, up, m)
    decreases m
  {
    if k < m { BestIsBest(certHigh, nc, up, m - 1, k); }
  }

  /** And it is the value at one of them. */
  lemma {:induction false} BestIsAttained(certHigh: real, nc: nat, up: seq<real>, m: nat) returns (k: nat)
    requires nc > 0 && m <= |up|
    ensures k <= m && BestMean(certHigh, nc, up, m) == (certHigh + Sum(up, k)) / (nc + k) as real
  {
    k := m;
    if m > 0 && BestMean(certHigh, nc, up, m) != (certHigh + Sum(up, m)) / (nc + m) as real {
      k := BestIsAttained(certHigh, nc, up, m - 1);
    }
  }

  datatype Interval = NoMean | Interval(low: real, high: real)

  /** The mean with every ambiguous value at the threshold. */
  function LowEnd(certLow: real, nc: nat, na: nat, th: real): real
    requires nc + na > 0
  {
    (certLow + na as real * th) / (nc + na) as real
  }

  /** The mean bounds from the totals and the upper ends in descending order. */
  function MeanInterval(t: SlabTotals, up: seq<real>, th: real): Interval
    requires t.na == |up|
  {
    if t.nc + t.na == 0 then NoMean
    else if t.nc > 0 then
      Interval(LowEnd(t.certLow, t.nc, t.na, th), BestMean(t.certHigh, t.nc, up, |up|))
    else Interval(th, up[0])
  }

  /** np.sort(...)[::-1] */
  function Insert(s: seq<real>, x: real): (r: seq<real>)
    ensures multiset(r) == multiset(s) + multiset{x} && |r| == |s| + 1
  {
    if s == [] || s[|s| - 1] >= x then s + [x]
    else
      assert s == s[..|s| - 1] + [s[|s| - 1]];
      Insert(s[..|s| - 1], x) + [s[|s| - 1]]
  }

  lemma {:induction false} InsertKeepsOrder(s: seq<real>, x: real)
    requires Descending(s)
    ensures Descending(Insert(s, x)) && Insert(s, x)[|s|] == if s == [] || s[|s| - 1] >= x then x else s[|s| - 1]
  {
    if s == [] || s[|s| - 1] >= x {
      AppendSmaller(s, x);
    } else {
      InsertKeepsOrder(s[..|s| - 1], x);
      AppendSmaller(Insert(s[..|s| - 1], x), s[|s| - 1]);
    }
  }

  lemma {:induction false} AppendSmaller(s: seq<real>, x: real)
    requires Descending(s) && (s != [] ==> s[|s| - 1] >= x)
    ensures Descending(s + [x])
  {
  }

  function SortDescending(v: seq<real>, n: nat): (s: seq<real>)
    requires n <= |v|
    ensures |s| == n && multiset(s) == multiset(v[..n])
  {
    if n == 0 then []
    else
      assert v[..n] == v[..n - 1] + [v[n - 1]];
      Insert(SortDescending(v, n - 1), v[n - 1])
  }

  lemma {:induction false} SortedIsDescending(v: seq<real>, n: nat)
    requires n <= |v|
    ensures Descending(SortDescending(v, n))
  {
    if n > 0 {
      SortedIsDescending(v, n - 1);
      InsertKeepsOrder(SortDescending(v, n - 1), v[n - 1]);
    }
  }

  /** The lower bound: ambiguous matches are above th, and more of them only pull a mean
    * that is at least th down towards it. */
  lemma {:induction false} LowMean(certLow: real, nc: nat, na: nat, th: real, m: nat, sum: real)
    requires nc > 0 && m <= na && certLow >= Times(nc, th) && sum >= certLow + Times(m, th)
    ensures LowEnd(certLow, nc, na, th) <= sum / (nc + m) as real
  {
    TimesIs(nc, th);
    TimesIs(m, th);
    Intervals.MeanIsMonotone(certLow, nc, m, na, th);
    Intervals.DivideMonotone(certLow + m as real * th, sum, nc + m);
    AtLeastEnd(certLow, nc, na, th);
  }

  /** With every ambiguous value included the mean is at most that of the certain ones. */
  lemma {:induction false} AtLeastEnd(certLow: real, nc: nat, na: nat, th: real)
    requires nc > 0 && th * nc as real <= certLow
    ensures (certLow + na as real * th) / (nc + na) as real <= certLow / nc as real
  {
    var avg := certLow / nc as real;
    Intervals.AtLeastQuotient(certLow, nc, th);
    Slack.MulLe(th, avg, na as real);
    Intervals.QuotientTimes(certLow, nc);
    Diluted(certLow, nc, na as real * th, na, avg);
  }

  /** More values of at most avg on average leave an average of at most avg. */
  lemma {:induction false} Diluted(certLow: real, nc: nat, more: real, na: nat, avg: real)
    requires nc > 0 && avg * nc as real == certLow && more <= avg * na as real
    ensures (certLow + more) / (nc + na) as real <= avg
  {
    Intervals.Distribute(nc, na, avg);
    Intervals.DivideMonotone(certLow + more, avg * (nc + na) as real, nc + na);
    Undo(avg, nc + na);
  }

  lemma {:induction false} Undo(avg: real, n: nat)
    requires n > 0
    ensures avg * n as real / n as real == avg
  {
  }

  lemma {:induction false} HighMean(t: SlabTotals, up: seq<real>, u: Truth)
    requires t.nc > 0 && Descending(up) && multiset(u.picked) <= multiset(up)
    requires u.count == t.nc + |u.picked| && u.sum <= t.certHigh + Sum(u.picked, |u.picked|)
    ensures u.sum / u.count as real <= BestMean(t.certHigh, t.nc, up, |up|)
  {
    LargestDominate(up, u.picked);
    BestIsBest(t.certHigh, t.nc, up, |up|, |u.picked|);
    Intervals.DivideMonotone(u.sum, t.certHigh + Sum(up, |u.picked|), u.count);
  }

  lemma {:induction false} SumAtMost(v: seq<real>, b: real, n: nat)
    requires n <= |v| && forall i :: 0 <= i < |v| ==> v[i] <= b
    ensures Sum(v, n) <= b * n as real
  {
    if n > 0 {
      SumAtMost(v, b, n - 1);
      OneMore(n - 1, b);
    }
  }

  lemma {:induction false} LargestIsFirst(up: seq<real>, picked: seq<real>)
    requires Descending(up) && multiset(picked) <= multiset(up) && picked != []
    ensures up != [] && forall i :: 0 <= i < |picked| ==> picked[i] <= up[0]
  {
    SubSize(picked, up);
    forall i | 0 <= i < |picked| ensures picked[i] <= up[0] {
      assert picked[i] in multiset(picked);
      assert picked[i] in multiset(up);
      var j :| 0 <= j < |up| && up[j] == picked[i];
    }
  }

  lemma {:induction false} OnlyAmbiguous(up: seq<real>, u: Truth, th: real)
    requires Descending(up) && multiset(u.picked) <= multiset(up) && u.count == |u.picked| > 0
    requires Times(u.count, th) <= u.sum <= Sum(u.picked, |u.picked|)
    ensures up != [] && th <= u.sum / u.count as real <= up[0]
  {
    LargestIsFirst(up, u.picked);
    SumAtMost(u.picked, up[0], |u.picked|);
    TimesIs(u.count, th);
    Intervals.AtLeastQuotient(u.sum, u.count, th);
    Intervals.DivideMonotone(u.sum, up[0] * u.count as real, u.count);
    Undo(up[0], u.count);
  }

  /** For any originals within their error bounds the certain ones all match, and if the
    * rounding of th - e leaves no gap, the count of those above the threshold and their mean
    * lie in the reported intervals; without a mean there are none. */
  lemma {:induction false} IntervalsHoldTruth(fp: Arith, xs: seq<Sample>, th: real)
    requires Binary64(fp) && ValidSamples(fp, xs)
    ensures var (t, u) := (TotalsOf(fp, xs, th, |xs|), TruthOf(fp, xs, th, |xs|));
            && t.na == |t.ups| && t.nc <= u.count
            && (NoGap(fp, xs, th) ==>
                  && u.count <= t.nc + t.na
                  && var m := MeanInterval(t, SortDescending(t.ups, |t.ups|), th);
                     if u.count == 0 then true
                     else m.Interval? && m.low <= u.sum / u.count as real <= m.high)
  {
    TotalsAgree(fp, xs, th, |xs|);
    if NoGap(fp, xs, th) {
      NothingMissed(fp, xs, th, |xs|);
      TruthInside(TotalsOf(fp, xs, th, |xs|), TruthOf(fp, xs, th, |xs|), th);
    }
  }

  lemma {:induction false} TruthInside(t: SlabTotals, u: Truth, th: real)
    requires Agrees(t, u, th) && u.missed == 0
    ensures t.nc <= u.count <= t.nc + t.na
    ensures var m := MeanInterval(t, SortDescending(t.ups, |t.ups|), th);
            u.count > 0 ==> m.Interval? && m.low <= u.sum / u.count as real <= m.high
  {
    SubSize(u.picked, t.ups);
    SortedIsDescending(t.ups, |t.ups|);
    assert t.ups[..|t.ups|] == t.ups;
    if u.count > 0 {
      MeanInside(t, u, th, SortDescending(t.ups, |t.ups|));
    }
  }

  lemma {:induction false} MeanInside(t: SlabTotals, u: Truth, th: real, up: seq<real>)
    requires Agrees(t, u, th) && u.missed == 0 && u.count > 0 && |u.picked| <= t.na == |up|
    requires Descending(up) && multiset(u.picked) <= multiset(up)
    ensures var m := MeanInterval(t, up, th); m.Interval? && m.low <= u.sum / u.count as real <= m.high
  {
    if t.nc > 0 {
      CertainInside(t, u, th, up);
    } else {
      OnlyAmbiguous(up, u, th);
    }
    IntervalIs(t, th, up, u.sum / u.count as real);
  }

  lemma {:induction false} IntervalIs(t: SlabTotals, th: real, up: seq<real>, q: real)
    requires t.na == |up| && (t.nc == 0 ==> up != [] && th <= q <= up[0])
    requires t.nc > 0 ==> LowEnd(t.certLow, t.nc, t.na, th) <= q <= BestMean(t.certHigh, t.nc, up, |up|)
    ensures var m := MeanInterval(t, up, th); m.Interval? && m.low <= q <= m.high
  {
  }

  lemma {:induction false} CertainInside(t: SlabTotals, u: Truth, th: real, up: seq<real>)
    requires Agrees(t, u, th) && u.missed == 0 && t.nc > 0 && |u.picked| <= t.na == |up|
    requires Descending(up) && multiset(u.picked) <= multiset(up)
    ensures LowEnd(t.certLow, t.nc, t.na, th) <= u.sum / u.count as real
    ensures u.sum / u.count as real <= BestMean(t.certHigh, t.nc, up, |up|)
  {
    LowMean(t.certLow, t.nc, t.na, th, |u.picked|, u.sum);
    HighMean(t, up, u);
  }

  // ---- when the count interval holds for all originals ----

  /** Some admissible original of the sample matches. */
  ghost predicate CanMatch(adm: iset<real>, x: Sample, th: real) {
    exists o :: o in adm && x.r - x.e <= o <= x.r + x.e && o > th
  }

  /** Admissible originals for the decoded values and bounds of xs. */
  ghost predicate Originals(fp: Arith, adm: iset<real>, xs: seq<Sample>, ys: seq<Sample>) {
    && ValidSamples(fp, ys) && |ys| == |xs|
    && forall i :: 0 <= i < |ys| ==> ys[i].o in adm && ys[i].r == xs[i].r && ys[i].e == xs[i].e
  }

  ghost function Matchable(adm: iset<real>, xs: seq<Sample>, th: real, n: nat): nat
    requires n <= |xs|
  {
    if n == 0 then 0 else Matchable(adm, xs, th, n - 1) + if CanMatch(adm, xs[n - 1], th) then 1 else 0
  }

  /** Samples in neither group that can match. */
  ghost function Missable(fp: Arith, adm: iset<real>, xs: seq<Sample>, th: real, n: nat): nat
    requires n <= |xs|
  {
    if n == 0 then 0
    else Missable(fp, adm, xs, th, n - 1) + if xs[n - 1].r <= fp.rnd(th - xs[n - 1].e) && CanMatch(adm, xs[n - 1], th) then 1 else 0
  }

  /** Ambiguous samples that cannot match. */
  ghost function Spare(fp: Arith, adm: iset<real>, xs: seq<Sample>, th: real, n: nat): nat
    requires n <= |xs|
  {
    if n == 0 then 0
    else Spare(fp, adm, xs, th, n - 1) + if Ambiguous(fp, xs[n - 1], th) && !CanMatch(adm, xs[n - 1], th) then 1 else 0
  }

  lemma {:induction false} MatchableSplits(fp: Arith, adm: iset<real>, xs: seq<Sample>, th: real, n: nat)
    requires Binary64(fp) && Originals(fp, adm, xs, xs) && n <= |xs|
    ensures var t := TotalsOf(fp, xs, th, n);
            t.nc + t.na + Missable(fp, adm, xs, th, n) == Matchable(adm, xs, th, n) + Spare(fp, adm, xs, th, n)
  {
    if n > 0 {
      var x := xs[n - 1];
      MatchableSplits(fp, adm, xs, th, n - 1);
      MissedIsGap(fp, x, th);
      if Certain(fp, x, th) {
        CertainIsAbove(fp, x, th);
        assert x.o in adm;
      }
    }
  }

  /** Whatever the originals, at most the matchable ones match. */
  lemma {:induction false} CountAtMost(fp: Arith, adm: iset<real>, xs: seq<Sample>, ys: seq<Sample>, th: real, n: nat)
    requires Originals(fp, adm, xs, ys) && n <= |xs|
    ensures TruthOf(fp, ys, th, n).count <= Matchable(adm, xs, th, n)
  {
    if n > 0 {
      CountAtMost(fp, adm, xs, ys, th, n - 1);
      assert ys[n - 1].o in adm && ValidSample(fp, ys[n - 1]);
    }
  }

  /** A matching original for every sample that has one. */
  ghost function Highest(fp: Arith, adm: iset<real>, xs: seq<Sample>, th: real, n: nat): (ys: seq<Sample>)
    requires Originals(fp, adm, xs, xs) && n <= |xs|
    ensures |ys| == n
    ensures forall i :: 0 <= i < n ==> ys[i].r == xs[i].r && ys[i].e == xs[i].e && ys[i].o in adm && ValidSample(fp, ys[i])
    ensures forall i :: 0 <= i < n ==> CanMatch(adm, xs[i], th) ==> ys[i].o > th
  {
    if n == 0 then []
    else
      var x := xs[n - 1];
      assert ValidSample(fp, x);
      var o := if CanMatch(adm, x, th) then var o :| o in adm && x.r - x.e <= o <= x.r + x.e && o > th; o else x.o;
      Highest(fp, adm, xs, th, n - 1) + [x.(o := o)]
  }

  lemma {:induction false} CountIsReached(fp: Arith, adm: iset<real>, xs: seq<Sample>, ys: seq<Sample>, th: real, n: nat)
    requires |ys| == |xs| && n <= |xs| && forall i :: 0 <= i < |xs| ==> CanMatch(adm, xs[i], th) ==> ys[i].o > th
    ensures Matchable(adm, xs, th, n) <= TruthOf(fp, ys, th, n).count
  {
    if n > 0 { CountIsReached(fp, adm, xs, ys, th, n - 1); }
  }

  /** The count of the matching originals stays below nc + na for all originals of a kind, say
    * all float32 values, exactly if no more samples of neither group can match than ambiguous
    * ones cannot. */
  lemma {:induction false} CountHolds(fp: Arith, adm: iset<real>, xs: seq<Sample>, th: real)
    requires Binary64(fp) && Originals(fp, adm, xs, xs)
    ensures var t := TotalsOf(fp, xs, th, |xs|);
            (forall ys :: Originals(fp, adm, xs, ys) ==> TruthOf(fp, ys, th, |ys|).count <= t.nc + t.na)
            <==> Missable(fp, adm, xs, th, |xs|) <= Spare(fp, adm, xs, th, |xs|)
  {
    var t := TotalsOf(fp, xs, th, |xs|);
    MatchableSplits(fp, adm, xs, th, |xs|);
    if Missable(fp, adm, xs, th, |xs|) <= Spare(fp, adm, xs, th, |xs|) {
      forall ys | Originals(fp, adm, xs, ys) ensures TruthOf(fp, ys, th, |ys|).count <= t.nc + t.na {
        CountAtMost(fp, adm, xs, ys, th, |xs|);
      }
    } else {
      var ys := Highest(fp, adm, xs, th, |xs|);
      CountIsReached(fp, adm, xs, ys, th, |xs|);
      assert Originals(fp, adm, xs, ys);
    }
  }

  /** If any number within its bounds may be an original, no gap is allowed at all. */
  lemma {:induction false} GapsDecide(fp: Arith, adm: iset<real>, xs: seq<Sample>, th: real, n: nat)
    requires Binary64(fp) && ValidSamples(fp, xs) && (forall o: real :: o in adm) && n <= |xs|
    ensures Spare(fp, adm, xs, th, n) == 0
    ensures Missable(fp, adm, xs, th, n) == 0 <==> forall i :: 0 <= i < n ==> !Gap(fp, xs[i], th)
  {
    if n > 0 {
      var x := xs[n - 1];
      GapsDecide(fp, adm, xs, th, n - 1);
      assert ValidSample(fp, x);
      if th < x.r + x.e { assert x.r + x.e in adm; }
      if Ambiguous(fp, x, th) { AboveRounded(fp, x.r, th - x.e); }
    }
  }

  // ---- when the ends of the intervals are reached ----

  /** Neither th - e nor th + e was rounded up to the decoded value or past it. */
  predicate Sharp(fp: Arith, x: Sample, th: real) {
    !Gap(fp, x, th) && !(th + x.e < x.r <= fp.rnd(th + x.e))
  }

  ghost predicate AllSharp(fp: Arith, xs: seq<Sample>, th: real) {
    forall i {:trigger Sharp(fp, xs[i], th)} :: 0 <= i < |xs| ==> Sharp(fp, xs[i], th)
  }

  /** Then the groups are those of exact comparisons. */
  lemma {:induction false} SharpIsExact(fp: Arith, x: Sample, th: real)
    requires Binary64(fp) && ValidSample(fp, x) && Sharp(fp, x, th)
    ensures Certain(fp, x, th) <==> x.r > th + x.e
    ensures Ambiguous(fp, x, th) <==> th - x.e < x.r <= th + x.e
  {
    if Certain(fp, x, th) { AboveRounded(fp, x.r, th + x.e); }
    if x.r > fp.rnd(th - x.e) { AboveRounded(fp, x.r, th - x.e); }
  }

  /** ys are originals for the first n samples of xs. */
  ghost predicate Drawn(fp: Arith, xs: seq<Sample>, ys: seq<Sample>, n: nat) {
    && |ys| == n <= |xs| && ValidSamples(fp, ys)
    && forall i :: 0 <= i < n ==> ys[i].r == xs[i].r && ys[i].e == xs[i].e
  }

  lemma {:induction false} SumPermuted(a: seq<real>, b: seq<real>)
    requires multiset(a) == multiset(b)
    ensures |a| == |b| && Sum(a, |a|) == Sum(b, |b|)
    decreases |a|
  {
    SubSize(a, b);
    SubSize(b, a);
    if a != [] {
      var n := |a| - 1;
      assert a == a[..n] + [a[n]];
      assert a[n] in multiset(b);
      var j :| 0 <= j < |b| && b[j] == a[n];
      RemoveOne(b, j);
      SumPermuted(a[..n], b[..j] + b[j + 1..]);
      SumWithout(b, j, |b|);
      SumPrefix(a[..n], a, n);
    }
  }

  /** Originals that are each as large as they can be, the ambiguous ones with upper ends
    * chosen matching and all others not. */
  ghost predicate IsHigh(t: SlabTotals, u: Truth, chosen: multiset<real>) {
    multiset(u.picked) == chosen && u.count == t.nc + |u.picked| && u.sum == t.certHigh + Sum(u.picked, |u.picked|)
  }

  /** y is a possible original for x. */
  ghost predicate IsDraw(fp: Arith, x: Sample, y: Sample) {
    ValidSample(fp, y) && y.r == x.r && y.e == x.e
  }

  /** y's original for x, and what it takes from the upper ends chosen. */
  ghost predicate Chooses(fp: Arith, x: Sample, th: real, chosen: multiset<real>, front: multiset<real>, y: Sample) {
    && y.r == x.r && y.e == x.e
    && if Certain(fp, x, th) then y.o == x.r + x.e > th && chosen == front
       else if Ambiguous(fp, x, th) && Matches(y, th) then y.o == x.r + x.e && chosen == front + multiset{x.r + x.e}
       else !Matches(y, th) && chosen == front
  }

  lemma {:induction false} HighStep(fp: Arith, t: SlabTotals, u: Truth, x: Sample, th: real, chosen: multiset<real>, front: multiset<real>, y: Sample)
    requires IsHigh(t, u, front) && Chooses(fp, x, th, chosen, front, y)
    ensures IsHigh(AddSample(fp, t, x, th), AddTruth(fp, u, y, th), chosen)
  {
    assert Certain(fp, y, th) == Certain(fp, x, th) && Ambiguous(fp, y, th) == Ambiguous(fp, x, th);
    if Certain(fp, x, th) {
      HighCertain(t, u, AddSample(fp, t, x, th), AddTruth(fp, u, y, th), front, x.r + x.e);
    } else if Ambiguous(fp, x, th) && Matches(y, th) {
      HighPicked(t, u, AddSample(fp, t, x, th), AddTruth(fp, u, y, th), front, x.r + x.e);
    }
  }

  lemma {:induction false} HighCertain(t: SlabTotals, u: Truth, v: SlabTotals, w: Truth, front: multiset<real>, o: real)
    requires IsHigh(t, u, front) && v.nc == t.nc + 1 && v.certHigh == t.certHigh + o
    requires w.picked == u.picked && w.count == u.count + 1 && w.sum == u.sum + o
    ensures IsHigh(v, w, front)
  {
  }

  lemma {:induction false} HighPicked(t: SlabTotals, u: Truth, v: SlabTotals, w: Truth, front: multiset<real>, o: real)
    requires IsHigh(t, u, front) && v.nc == t.nc && v.certHigh == t.certHigh
    requires w.picked == u.picked + [o] && w.count == u.count + 1 && w.sum == u.sum + o
    ensures IsHigh(v, w, front + multiset{o})
  {
    PickOne(u.picked, front, o);
  }

  lemma {:induction false} PickOne(picked: seq<real>, front: multiset<real>, v: real)
    requires multiset(picked) == front
    ensures multiset(picked + [v]) == front + multiset{v} && Sum(picked + [v], |picked + [v]|) == Sum(picked, |picked|) + v
  {
    SumMore(picked, v);
    assert |picked + [v]| == |picked| + 1;
  }

  /** The last sample's original, and what is left to choose. */
  lemma {:induction false} HighChoice(fp: Arith, t: SlabTotals, x: Sample, th: real, chosen: multiset<real>) returns (y: Sample, front: multiset<real>)
    requires Binary64(fp) && ValidSample(fp, x) && Sharp(fp, x, th) && chosen <= multiset(AddSample(fp, t, x, th).ups)
    ensures IsDraw(fp, x, y) && front <= multiset(t.ups)
    ensures Chooses(fp, x, th, chosen, front, y)
  {
    SharpIsExact(fp, x, th);
    var v := x.r + x.e;
    if Certain(fp, x, th) {
      y, front := x.(o := v), chosen;
    } else if Ambiguous(fp, x, th) {
      front := TakeOut(chosen, t.ups, v);
      y := x.(o := if v in chosen then v else x.r - x.e);
    } else {
      y, front := x.(o := x.r - x.e), chosen;
    }
  }

  /** The same for sample m of a list. */
  lemma {:induction false} NextChoice(fp: Arith, xs: seq<Sample>, th: real, m: nat, n: nat, chosen: multiset<real>) returns (y: Sample, front: multiset<real>)
    requires Binary64(fp) && ValidSamples(fp, xs) && AllSharp(fp, xs, th) && n == m + 1 <= |xs|
    requires chosen <= multiset(TotalsOf(fp, xs, th, n).ups)
    ensures IsDraw(fp, xs[m], y) && front <= multiset(TotalsOf(fp, xs, th, m).ups) && Chooses(fp, xs[m], th, chosen, front, y)
  {
    y, front := HighChoice(fp, TotalsOf(fp, xs, th, m), xs[m], th, chosen);
  }

  lemma {:induction false} TakeOut(chosen: multiset<real>, ups: seq<real>, v: real) returns (front: multiset<real>)
    requires chosen <= multiset(ups + [v])
    ensures front <= multiset(ups) && chosen == if v in chosen then front + multiset{v} else front
  {
    AsideLast(chosen, multiset(ups), v);
    front := if v in chosen then chosen - multiset{v} else chosen;
  }

  ghost predicate AreHigh(fp: Arith, xs: seq<Sample>, ys: seq<Sample>, th: real, n: nat, chosen: multiset<real>)
    requires n <= |xs|
  {
    Drawn(fp, xs, ys, n) && IsHigh(TotalsOf(fp, xs, th, n), TruthOf(fp, ys, th, n), chosen)
  }

  lemma {:induction false} HighOriginals(fp: Arith, xs: seq<Sample>, th: real, n: nat, chosen: multiset<real>) returns (ys: seq<Sample>)
    requires Binary64(fp) && ValidSamples(fp, xs) && AllSharp(fp, xs, th) && n <= |xs| && chosen <= multiset(TotalsOf(fp, xs, th, n).ups)
    ensures AreHigh(fp, xs, ys, th, n, chosen)
  {
    if n == 0 {
      ys := [];
      NothingHigh(fp, xs, th, n, chosen);
    } else {
      var y, front := NextChoice(fp, xs, th, n - 1, n, chosen);
      var zs := HighOriginals(fp, xs, th, n - 1, front);
      ys := HighNext(fp, xs, zs, th, n - 1, n, chosen, front, y);
    }
  }

  lemma {:induction false} NothingHigh(fp: Arith, xs: seq<Sample>, th: real, n: nat, chosen: multiset<real>)
    requires n == 0 && chosen <= multiset(TotalsOf(fp, xs, th, n).ups)
    ensures AreHigh(fp, xs, [], th, n, chosen)
  {
    assert chosen == multiset([]);
  }

  lemma {:induction false} HighNext(fp: Arith, xs: seq<Sample>, zs: seq<Sample>, th: real, m: nat, n: nat, chosen: multiset<real>, front: multiset<real>, y: Sample)
    returns (ys: seq<Sample>)
    requires n == m + 1 <= |xs| && AreHigh(fp, xs, zs, th, m, front) && IsDraw(fp, xs[m], y)
    requires Chooses(fp, xs[m], th, chosen, front, y)
    ensures AreHigh(fp, xs, ys, th, n, chosen)
  {
    HighStep(fp, TotalsOf(fp, xs, th, m), TruthOf(fp, zs, th, m), xs[m], th, chosen, front, y);
    ys := OneDrawn(fp, xs, zs, th, n, y);
  }

  lemma {:induction false} OneDrawn(fp: Arith, xs: seq<Sample>, zs: seq<Sample>, th: real, n: nat, y: Sample) returns (ys: seq<Sample>)
    requires 0 < n <= |xs| && Drawn(fp, xs, zs, n - 1) && IsDraw(fp, xs[n - 1], y)
    ensures Drawn(fp, xs, ys, n) && TruthOf(fp, ys, th, n) == AddTruth(fp, TruthOf(fp, zs, th, n - 1), y, th)
  {
    ys := zs + [y];
    TruthPrefix(fp, zs, ys, th, n - 1);
  }

  lemma {:induction false} TruthPrefix(fp: Arith, a: seq<Sample>, b: seq<Sample>, th: real, n: nat)
    requires n <= |a| && a <= b
    ensures TruthOf(fp, a, th, n) == TruthOf(fp, b, th, n)
  {
    if n > 0 { TruthPrefix(fp, a, b, th, n - 1); }
  }

  lemma {:induction false} NoCertainSum(fp: Arith, xs: seq<Sample>, th: real, n: nat)
    requires n <= |xs|
    ensures var t := TotalsOf(fp, xs, th, n); t.na == |t.ups| && (t.nc == 0 ==> t.certHigh == 0.0 == t.certLow)
  {
    if n > 0 { NoCertainSum(fp, xs, th, n - 1); }
  }

  ghost predicate MeanIs(t: SlabTotals, u: Truth, th: real)
    requires t.na == |t.ups|
  {
    && u.count > 0
    && var m := MeanInterval(t, SortDescending(t.ups, |t.ups|), th); m.Interval? && m.high == u.sum / u.count as real
  }

  lemma {:induction false} PrefixOf(up: seq<real>, ups: seq<real>, k: nat)
    requires multiset(up) == multiset(ups) && k <= |up|
    ensures multiset(up[..k]) <= multiset(ups)
  {
    assert up == up[..k] + up[k..];
  }

  /** How many of the upper ends, the largest first, make the largest mean. */
  lemma {:induction false} HighestCount(t: SlabTotals, up: seq<real>, th: real) returns (k: nat)
    requires t.nc + t.na > 0 && t.na == |up| && (t.nc == 0 ==> t.certHigh == 0.0)
    ensures k <= |up| && t.nc + k > 0 && MeanInterval(t, up, th).Interval?
    ensures MeanInterval(t, up, th).high == (t.certHigh + Sum(up, k)) / (t.nc + k) as real
  {
    if t.nc > 0 {
      k := BestIsAttained(t.certHigh, t.nc, up, |up|);
    } else {
      k := 1;
      FirstOnly(up);
    }
  }

  /** Which of the upper ends make the largest mean. */
  lemma {:induction false} HighSubset(t: SlabTotals, up: seq<real>, th: real) returns (chosen: seq<real>)
    requires t.nc + t.na > 0 && t.na == |t.ups| == |up| && (t.nc == 0 ==> t.certHigh == 0.0) && multiset(up) == multiset(t.ups)
    ensures multiset(chosen) <= multiset(t.ups) && t.nc + |chosen| > 0 && MeanInterval(t, up, th).Interval?
    ensures MeanInterval(t, up, th).high == (t.certHigh + Sum(chosen, |chosen|)) / (t.nc + |chosen|) as real
  {
    var k := HighestCount(t, up, th);
    chosen := up[..k];
    PrefixOf(up, t.ups, k);
    SumPrefix(chosen, up, k);
  }

  lemma {:induction false} SortedIsSame(v: seq<real>)
    ensures multiset(SortDescending(v, |v|)) == multiset(v)
  {
    assert v[..|v|] == v;
  }

  lemma {:induction false} FirstOnly(up: seq<real>)
    ensures up != [] ==> Sum(up, 1) == up[0] && (0.0 + up[0]) / 1.0 == up[0]
  {
    if up != [] { assert Sum(up, 0) == 0.0; }
  }

  /** The upper end of the mean's interval is the mean of some originals. */
  lemma {:induction false} HighIsReached(fp: Arith, xs: seq<Sample>, th: real) returns (ys: seq<Sample>)
    requires Binary64(fp) && ValidSamples(fp, xs) && AllSharp(fp, xs, th)
    requires var t := TotalsOf(fp, xs, th, |xs|); t.nc + t.na > 0
    ensures Drawn(fp, xs, ys, |xs|) && TotalsOf(fp, xs, th, |xs|).na == |TotalsOf(fp, xs, th, |xs|).ups|
    ensures MeanIs(TotalsOf(fp, xs, th, |xs|), TruthOf(fp, ys, th, |xs|), th)
  {
    var t := TotalsOf(fp, xs, th, |xs|);
    NoCertainSum(fp, xs, th, |xs|);
    SortedIsSame(t.ups);
    var chosen := HighSubset(t, SortDescending(t.ups, |t.ups|), th);
    ys := HighOriginals(fp, xs, th, |xs|, multiset(chosen));
    HighMeanIs(t, TruthOf(fp, ys, th, |xs|), th, chosen);
  }

  lemma {:induction false} HighMeanIs(t: SlabTotals, u: Truth, th: real, chosen: seq<real>)
    requires t.na == |t.ups| && IsHigh(t, u, multiset(chosen)) && t.nc + |chosen| > 0
    requires var m := MeanInterval(t, SortDescending(t.ups, |t.ups|), th);
             m.Interval? && m.high == (t.certHigh + Sum(chosen, |chosen|)) / (t.nc + |chosen|) as real
    ensures MeanIs(t, u, th)
  {
    SumPermuted(u.picked, chosen);
  }

  /** Originals that all are as small as they can be, the ambiguous ones matching by d at most. */
  ghost predicate IsLow(t: SlabTotals, u: Truth, th: real, d: real) {
    u.count == t.nc + t.na && u.sum <= t.certLow + Times(t.na, th + d)
  }

  lemma {:induction false} LowChoice(fp: Arith, t: SlabTotals, u: Truth, x: Sample, th: real, d: real) returns (y: Sample)
    requires Binary64(fp) && ValidSample(fp, x) && Sharp(fp, x, th) && d > 0.0 && IsLow(t, u, th, d)
    ensures IsDraw(fp, x, y) && IsLow(AddSample(fp, t, x, th), AddTruth(fp, u, y, th), th, d)
  {
    SharpIsExact(fp, x, th);
    y := x.(o := if Ambiguous(fp, x, th) then (if th + d < x.r + x.e then th + d else x.r + x.e) else x.r - x.e);
    assert Times(t.na + 1, th + d) == Times(t.na, th + d) + (th + d);
  }

  lemma {:induction false} LowOriginals(fp: Arith, xs: seq<Sample>, th: real, d: real, n: nat) returns (ys: seq<Sample>)
    requires Binary64(fp) && ValidSamples(fp, xs) && AllSharp(fp, xs, th) && n <= |xs| && d > 0.0
    ensures Drawn(fp, xs, ys, n) && IsLow(TotalsOf(fp, xs, th, n), TruthOf(fp, ys, th, n), th, d)
  {
    if n == 0 {
      ys := [];
    } else {
      var zs := LowOriginals(fp, xs, th, d, n - 1);
      var y := LowChoice(fp, TotalsOf(fp, xs, th, n - 1), TruthOf(fp, zs, th, n - 1), xs[n - 1], th, d);
      ys := OneDrawn(fp, xs, zs, th, n, y);
    }
  }

  ghost predicate MeanIsNear(t: SlabTotals, u: Truth, th: real, d: real)
    requires t.na == |t.ups|
  {
    && u.count == t.nc + t.na > 0
    && var m := MeanInterval(t, SortDescending(t.ups, |t.ups|), th); m.Interval? && u.sum / u.count as real <= m.low + d
  }

  /** The lower end in either case. */
  lemma {:induction false} LowEndIs(t: SlabTotals, up: seq<real>, th: real)
    requires t.nc + t.na > 0 && t.na == |up| && (t.nc == 0 ==> t.certLow == 0.0)
    ensures MeanInterval(t, up, th).Interval? && MeanInterval(t, up, th).low == LowEnd(t.certLow, t.nc, t.na, th)
  {
    if t.nc == 0 {
      Undo(th, t.na);
      assert t.certLow + t.na as real * th == th * t.na as real;
    }
  }

  lemma {:induction false} LowMeanIsNear(t: SlabTotals, u: Truth, th: real, d: real)
    requires t.nc + t.na > 0 && t.na == |t.ups| && (t.nc == 0 ==> t.certLow == 0.0) && d > 0.0 && IsLow(t, u, th, d)
    ensures MeanIsNear(t, u, th, d)
  {
    TimesIs(t.na, th + d);
    LowLimit(u.sum, t.certLow, t.nc, t.na, th, d);
    LowEndIs(t, SortDescending(t.ups, |t.ups|), th);
  }

  /** The lower end is a limit of means: some originals' mean lies within d of it. */
  lemma {:induction false} LowIsApproached(fp: Arith, xs: seq<Sample>, th: real, d: real) returns (ys: seq<Sample>)
    requires Binary64(fp) && ValidSamples(fp, xs) && AllSharp(fp, xs, th) && d > 0.0
    requires var t := TotalsOf(fp, xs, th, |xs|); t.nc + t.na > 0
    ensures Drawn(fp, xs, ys, |xs|) && TotalsOf(fp, xs, th, |xs|).na == |TotalsOf(fp, xs, th, |xs|).ups|
    ensures MeanIsNear(TotalsOf(fp, xs, th, |xs|), TruthOf(fp, ys, th, |xs|), th, d)
  {
    NoCertainSum(fp, xs, th, |xs|);
    ys := LowOriginals(fp, xs, th, d, |xs|);
    LowMeanIsNear(TotalsOf(fp, xs, th, |xs|), TruthOf(fp, ys, th, |xs|), th, d);
  }

  lemma {:induction false} LowLimit(sum: real, certLow: real, nc: nat, na: nat, th: real, d: real)
    requires nc + na > 0 && d > 0.0 && sum <= certLow + na as real * (th + d)
    ensures sum / (nc + na) as real <= LowEnd(certLow, nc, na, th) + d
  {
    var low := LowEnd(certLow, nc, na, th);
    Intervals.QuotientTimes(certLow + na as real * th, nc + na);
    Expand(th, d, na as real);
    Expand(low, d, (nc + na) as real);
    Slack.MulLe(na as real, (nc + na) as real, d);
    AtMostQuotient(sum, low + d, nc + na);
  }

  lemma {:induction false} Expand(a: real, b: real, n: real)
    ensures (a + b) * n == a * n + b * n && n * (a + b) == n * a + n * b && n * a == a * n && n * b == b * n
  {
  }

  lemma {:induction false} AtMostQuotient(sum: real, q: real, n: nat)
    requires n > 0 && sum <= q * n as real
    ensures sum / n as real <= q
  {
    Intervals.DivideMonotone(sum, q * n as real, n);
    Undo(q, n);
  }

  // ---- the input that is missed ----

  /** 2^-60 */
  const SMALL: real := 1.0 / 1152921504606846976.0

  /** A match that is missed: th - e = -1 - 2^-60 is rounded up to -1, the decoded value of 0. */
  lemma {:induction false} MatchIsMissed(fp: Arith, x: Sample)
    requires Ieee.IsIeee(fp) && x == Sample(0.0, -1.0, 1.0)
    ensures ValidSample(fp, x) && Rep(fp, -SMALL)
    ensures TotalsOf(fp, [x], -SMALL, 1) == SlabTotals(0, 0, 0.0, 0.0, []) && TruthOf(fp, [x], -SMALL, 1).count == 1
  {
    Ieee.IeeeIsBinary64(fp);
    IntIsRep(fp, -1);
    SmallIsRep(fp);
    Ieee.RoundsToOne(fp.quantum, 1.0 + SMALL);
    assert Ieee.StepsAt(fp, 1.0 + SMALL);
    Symmetric(fp, 1.0 + SMALL);
    Monotone(fp, 0.0, -SMALL + 1.0);
    Symmetric(fp, 0.0);
    assert TotalsOf(fp, [x], -SMALL, 0) == SlabTotals(0, 0, 0.0, 0.0, []);
    assert TruthOf(fp, [x], -SMALL, 0).count == 0;
  }

  lemma {:induction false} SmallIsRep(fp: Arith)
    requires Ieee.IsIeee(fp)
    ensures Rep(fp, -SMALL)
  {
    var q := fp.quantum;
    var n: nat :| Ieee.IsUnit(q, n);
    var k: nat := n - 60;
    Float32.FarSpacing(q, k);
    Float32.FarSpacing(q, k + 28);
    Float32.Sixteen(q, k + 56, n);
    assert Ieee.Spacing(q, k) == SMALL;
    Ieee.PointIsFixed(q, -SMALL, -1, k);
    assert Ieee.StepsAt(fp, -SMALL);
  }

  // ---- the loop over slabs ----

  /** The samples of the first n slabs. */
  function Samples(slabs: seq<seq<Sample>>, n: nat): seq<Sample>
    requires n <= |slabs|
  {
    if n == 0 then [] else Samples(slabs, n - 1) + slabs[n - 1]
  }

  lemma {:induction false} TotalsPrefix(fp: Arith, a: seq<Sample>, b: seq<Sample>, th: real, n: nat)
    requires n <= |a| && a <= b
    ensures TotalsOf(fp, a, th, n) == TotalsOf(fp, b, th, n)
  {
    if n > 0 { TotalsPrefix(fp, a, b, th, n - 1); }
  }

  /** The totals of the first n samples. */
  ghost predicate AreTotals(fp: Arith, xs: seq<Sample>, th: real, n: nat, nc: nat, na: nat, certLow: real, certHigh: real, ups: seq<real>) {
    n <= |xs| && SlabTotals(nc, na, certLow, certHigh, ups) == TotalsOf(fp, xs, th, n)
  }

  /** One slab's values, added to the totals of what precedes it. */
  method AddSlab(fp: Arith, slab: seq<Sample>, th: real, nc0: nat, na0: nat, certLow0: real, certHigh0: real, ups0: seq<real>,
                 ghost all: seq<Sample>, ghost start: nat)
    returns (nc: nat, na: nat, certLow: real, certHigh: real, ups: seq<real>)
    requires start + |slab| <= |all| && forall j :: 0 <= j < |slab| ==> slab[j] == all[start + j]
    requires AreTotals(fp, all, th, start, nc0, na0, certLow0, certHigh0, ups0)
    ensures AreTotals(fp, all, th, start + |slab|, nc, na, certLow, certHigh, ups)
  {
    nc, na, certLow, certHigh, ups := nc0, na0, certLow0, certHigh0, ups0;
    for j := 0 to |slab|
      invariant AreTotals(fp, all, th, start + j, nc, na, certLow, certHigh, ups)
    {
      var x := slab[j];
      if x.r > fp.rnd(th + x.e) {
        nc, certLow, certHigh := nc + 1, certLow + (x.r - x.e), certHigh + (x.r + x.e);
      } else if x.r > fp.rnd(th - x.e) {
        na, ups := na + 1, ups + [x.r + x.e];
      }
    }
  }

  lemma {:induction false} AmbiguousAreListed(fp: Arith, xs: seq<Sample>, th: real, n: nat)
    requires n <= |xs|
    ensures TotalsOf(fp, xs, th, n).na == |TotalsOf(fp, xs, th, n).ups|
  {
    if n > 0 { AmbiguousAreListed(fp, xs, th, n - 1); }
  }

  /** The loop over all slabs. */
  method AddSlabs(fp: Arith, slabs: seq<seq<Sample>>, th: real) returns (nc: nat, na: nat, certLow: real, certHigh: real, ups: seq<real>)
    ensures var xs := Samples(slabs, |slabs|); AreTotals(fp, xs, th, |xs|, nc, na, certLow, certHigh, ups)
  {
    nc, na, certLow, certHigh, ups := 0, 0, 0.0, 0.0, [];
    ghost var seen: seq<Sample> := [];
    for i := 0 to |slabs|
      invariant seen == Samples(slabs, i) && AreTotals(fp, seen, th, |seen|, nc, na, certLow, certHigh, ups)
    {
      ghost var all := seen + slabs[i];
      TotalsPrefix(fp, seen, all, th, |seen|);
      nc, na, certLow, certHigh, ups := AddSlab(fp, slabs[i], th, nc, na, certLow, certHigh, ups, all, |seen|);
      seen := all;
    }
  }

  /** The totals built slab by slab are those of all samples, and the interval follows. */
  method Stage2(fp: Arith, slabs: seq<seq<Sample>>, th: real) returns (nc: nat, na: nat, avg: Interval)
    ensures var xs := Samples(slabs, |slabs|);
            var t := TotalsOf(fp, xs, th, |xs|);
            nc == t.nc && na == t.na && t.na == |t.ups| && avg == MeanInterval(t, SortDescending(t.ups, |t.ups|), th)
  {
    var certLow, certHigh, ups;
    nc, na, certLow, certHigh, ups := AddSlabs(fp, slabs, th);
    AmbiguousAreListed(fp, Samples(slabs, |slabs|), th, |Samples(slabs, |slabs|)|);
    var up := SortDescending(ups, |ups|);
    avg := MeanInterval(SlabTotals(nc, na, certLow, certHigh, ups), up, th);
  }
}
