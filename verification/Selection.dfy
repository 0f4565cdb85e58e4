/** quantiles: order statistics of float32 data by three passes of radix selection over
  * slabs of it, never holding more than one slab. */
module Selection {
  import opened MixedRadix
  import Bits

  // ---- sortable keys of float32 bit patterns ----

  const TOP: nat := 0x8000_0000

  /** A 32-bit pattern of a float32. */
  predicate IsBits(u: nat) { u < 0x1_0000_0000 }

  function Magnitude(u: nat): nat { u % TOP }
  function Exponent(x: nat): nat { x / 0x80_0000 }
  function Mantissa(x: nat): nat { x % 0x80_0000 }

  predicate IsNaN(u: nat) {
    Exponent(Magnitude(u)) == 255 && Mantissa(Magnitude(u)) > 0
  }

  /** The size of a number in units of 2^-149: subnormal below exponent 1, else with the
    * hidden bit. Infinity comes out above every finite number. */
  function Size(x: nat): nat {
    if Exponent(x) == 0 then Mantissa(x) else (0x80_0000 + Mantissa(x)) * Bits.Pow2(Exponent(x) - 1)
  }

  /** The value of a pattern that is not NaN, in units of 2^-149. */
  function FloatValue(u: nat): int {
    var size: int := Size(Magnitude(u));
    if u >= TOP then -size else size
  }

  /** _sort_keys: np.where(u >> 31, ~u, u | 1 << 31) */
  function SortKey(u: nat): nat
    requires IsBits(u)
  {
    if u >= TOP then 0xFFFF_FFFF - u else u + TOP
  }

  /** _key_value */
  function KeyValue(k: nat): nat
    requires IsBits(k)
  {
    if k >= TOP then k - TOP else 0xFFFF_FFFF - k
  }

  lemma {:induction false} Pow2Grows(d: nat, e: nat)
    requires d <= e
    ensures 1 <= Bits.Pow2(d) <= Bits.Pow2(e)
    decreases e
  {
    if d < e {
      Pow2Grows(d, e - 1);
    } else if d > 0 {
      Pow2Grows(d - 1, d - 1);
    }
  }

  lemma {:induction false} ScaleLess(a: nat, b: nat, p: nat)
    requires a < b && p > 0
    ensures a * p < b * p
  {
  }

  lemma {:induction false} ScaleMore(a: nat, p: nat, q: nat)
    requires p <= q
    ensures a * p <= a * q
  {
  }

  /** Larger patterns without sign are larger numbers. */
  lemma {:induction false} SizeGrows(x: nat, y: nat)
    requires x < y
    ensures Size(x) < Size(y)
  {
    var (d, e) := (Exponent(x), Exponent(y));
    if d == e {
      if d > 0 {
        Pow2Grows(0, d - 1);
        ScaleLess(0x80_0000 + Mantissa(x), 0x80_0000 + Mantissa(y), Bits.Pow2(d - 1));
      }
    } else {
      Pow2Grows(d, e);
      Pow2Grows(if d == 0 then 0 else d, e - 1);
      assert Size(x) < 0x80_0000 * Bits.Pow2(d) by {
        if d > 0 {
          ScaleLess(0x80_0000 + Mantissa(x), 0x100_0000, Bits.Pow2(d - 1));
        }
      }
      ScaleMore(0x80_0000, Bits.Pow2(d), Bits.Pow2(e - 1));
      ScaleAtLeast(0x80_0000, 0x80_0000 + Mantissa(y), Bits.Pow2(e - 1));
    }
  }

  lemma {:induction false} ScaleAtLeast(a: nat, b: nat, p: nat)
    requires a <= b
    ensures a * p <= b * p
  {
  }

  lemma {:induction false} SizeOrder(x: nat, y: nat)
    ensures Size(x) < Size(y) <==> x < y
  {
    if x < y {
      SizeGrows(x, y);
    } else if y < x {
      SizeGrows(y, x);
    }
  }

  lemma {:induction false} MagnitudeOf(u: nat)
    requires IsBits(u)
    ensures Magnitude(u) == if u >= TOP then u - TOP else u
  {
  }

  /** Keys sort like the numbers; only the two zeros, which are equal, get different keys. */
  lemma {:induction false} KeysSortLikeFloats(u: nat, v: nat)
    requires IsBits(u) && IsBits(v)
    ensures FloatValue(u) < FloatValue(v) ==> SortKey(u) < SortKey(v)
    ensures SortKey(u) < SortKey(v) ==> FloatValue(u) < FloatValue(v) || (u == TOP && v == 0)
  {
    MagnitudeOf(u);
    MagnitudeOf(v);
    Signed(u >= TOP, v >= TOP, Magnitude(u), Magnitude(v), Size(Magnitude(u)), Size(Magnitude(v)));
  }

  /** Comparing signed sizes is comparing signed patterns. */
  lemma {:induction false} Signed(s: bool, t: bool, x: nat, y: nat, a: nat, b: nat)
    requires a == Size(x) && b == Size(y)
    ensures (if s then -(a as int) else a) < (if t then -(b as int) else b) <==> (if s then -(x as int) else x) < (if t then -(y as int) else y)
  {
    SizeOrder(x, y);
    SizeOrder(y, x);
    SizeOrder(0, x);
    SizeOrder(0, y);
  }

  lemma {:induction false} KeyValueUndoesSortKey(u: nat)
    requires IsBits(u)
    ensures IsBits(SortKey(u)) && KeyValue(SortKey(u)) == u && IsBits(KeyValue(u)) && SortKey(KeyValue(u)) == u
  {
  }

  // ---- counting keys by prefix ----

  /** How many of the first n keys have a prefix k / w below p. */
  function Below(keys: seq<nat>, w: nat, p: nat, n: nat): nat
    requires w > 0 && n <= |keys|
  {
    if n == 0 then 0 else Below(keys, w, p, n - 1) + if High(keys[n - 1], w) < p then 1 else 0
  }

  /** How many have exactly the prefix p. */
  function Equal(keys: seq<nat>, w: nat, p: nat, n: nat): nat
    requires w > 0 && n <= |keys|
  {
    if n == 0 then 0 else Equal(keys, w, p, n - 1) + if High(keys[n - 1], w) == p then 1 else 0
  }

  lemma {:induction false} BelowNext(keys: seq<nat>, w: nat, p: nat, n: nat)
    requires w > 0 && n <= |keys|
    ensures Below(keys, w, p + 1, n) == Below(keys, w, p, n) + Equal(keys, w, p, n)
  {
    if n > 0 { BelowNext(keys, w, p, n - 1); }
  }

  /** A prefix of fewer bits below p is the finer prefix below p * b. */
  lemma {:induction false} BelowRefines(keys: seq<nat>, w: nat, b: nat, wide: nat, p: nat, n: nat)
    requires w > 0 && b > 0 && wide == w * b && wide > 0 && n <= |keys|
    ensures Below(keys, wide, p, n) == Below(keys, w, p * b, n)
  {
    if n > 0 {
      BelowRefines(keys, w, b, wide, p, n - 1);
      PrefixRefines(keys[n - 1], w, b, wide, p);
    }
  }

  lemma {:induction false} PrefixRefines(k: nat, w: nat, b: nat, wide: nat, p: nat)
    requires w > 0 && b > 0 && wide == w * b && wide > 0
    ensures High(k, wide) < p <==> High(k, w) < p * b
    ensures High(k, wide) == High(High(k, w), b)
  {
    DivideTwice(k, b, w);
    Commuted(w, b);
    var q := High(k, w);
    SplitPairs(q, b);
    if High(q, b) < p {
      MulGrows(High(q, b) + 1, p, b);
      Spread(High(q, b), 1, b);
    } else {
      MulGrows(p, High(q, b), b);
    }
  }

  lemma {:induction false} Commuted(a: nat, b: nat)
    ensures a * b == b * a
  {
  }

  lemma {:induction false} EqualAppend(a: seq<nat>, b: seq<nat>, w: nat, p: nat, n: nat)
    requires w > 0 && n <= |b|
    ensures Equal(a + b, w, p, |a| + n) == Equal(a, w, p, |a|) + Equal(b, w, p, n)
    decreases n
  {
    if n == 0 {
      EqualPrefix(a, a + b, w, p, |a|);
    } else {
      EqualAppend(a, b, w, p, n - 1);
      assert (a + b)[|a| + n - 1] == b[n - 1];
    }
  }

  lemma {:induction false} EqualPrefix(a: seq<nat>, c: seq<nat>, w: nat, p: nat, n: nat)
    requires w > 0 && n <= |a| && a <= c
    ensures Equal(a, w, p, n) == Equal(c, w, p, n)
  {
    if n > 0 { EqualPrefix(a, c, w, p, n - 1); }
  }

  // ---- one group's histogram over all slabs ----

  /** hist[d] counts the keys with prefix p * b + d. */
  ghost predicate IsHistogram(hist: seq<nat>, keys: seq<nat>, w: nat, b: nat, p: nat)
    requires w > 0
  {
    |hist| == b && forall d :: 0 <= d < b ==> hist[d] == Equal(keys, w, Pair(p, b, d), |keys|)
  }

  /** The keys of the group p in one slab, counted by their next digit. */
  method CountSlab(hist: seq<nat>, slab: seq<nat>, w: nat, b: nat, wide: nat, p: nat, ghost seen: seq<nat>) returns (r: seq<nat>)
    requires w > 0 && b > 0 && wide == w * b && wide > 0 && IsHistogram(hist, seen, w, b, p)
    ensures IsHistogram(r, seen + slab, w, b, p)
  {
    r := hist;
    for i := 0 to |slab|
      invariant |r| == b && forall d :: 0 <= d < b ==> r[d] == hist[d] + Equal(slab, w, Pair(p, b, d), i)
    {
      DigitOf(slab[i], w, b, wide, p);
      if slab[i] / wide == p {
        var d := (slab[i] / w) % b;
        r := r[d := r[d] + 1];
      }
    }
    forall d | 0 <= d < b ensures r[d] == Equal(seen + slab, w, Pair(p, b, d), |seen + slab|) {
      EqualAppend(seen, slab, w, Pair(p, b, d), |slab|);
    }
  }

  /** A key is in group p with digit d exactly when its finer prefix is p * b + d. */
  lemma {:induction false} DigitOf(k: nat, w: nat, b: nat, wide: nat, p: nat)
    requires w > 0 && b > 0 && wide == w * b && wide > 0
    ensures forall d :: 0 <= d < b ==> (High(k, w) == Pair(p, b, d) <==> High(k, wide) == p && Low(High(k, w), b) == d)
    ensures Low(High(k, w), b) < b
  {
    PrefixRefines(k, w, b, wide, p);
    forall d | 0 <= d < b ensures High(k, w) == Pair(p, b, d) <==> High(k, wide) == p && Low(High(k, w), b) == d {
      PairSplits(p, b, d);
      SplitPairs(High(k, w), b);
    }
  }

  /** The keys of the first n slabs. */
  function KeysOf(slabs: seq<seq<nat>>, n: nat): seq<nat>
    requires n <= |slabs|
  {
    if n == 0 then [] else KeysOf(slabs, n - 1) + slabs[n - 1]
  }

  function Zeros(b: nat): (r: seq<nat>)
    ensures |r| == b && forall d :: 0 <= d < b ==> r[d] == 0
  {
    if b == 0 then [] else Zeros(b - 1) + [0]
  }

  /** One pass over the slabs fills the histogram of every group. */
  method Histograms(slabs: seq<seq<nat>>, w: nat, b: nat, wide: nat, groups: set<nat>) returns (hist: map<nat, seq<nat>>)
    requires w > 0 && b > 0 && wide == w * b && wide > 0
    ensures hist.Keys == groups
    ensures forall p :: p in groups ==> IsHistogram(hist[p], KeysOf(slabs, |slabs|), w, b, p)
  {
    hist := map p | p in groups :: Zeros(b);
    for i := 0 to |slabs|
      invariant hist.Keys == groups && forall p :: p in groups ==> IsHistogram(hist[p], KeysOf(slabs, i), w, b, p)
    {
      ghost var seen := KeysOf(slabs, i);
      var todo := groups;
      while todo != {}
        invariant todo <= groups && hist.Keys == groups
        invariant forall p :: p in todo ==> IsHistogram(hist[p], seen, w, b, p)
        invariant forall p :: p in groups && p !in todo ==> IsHistogram(hist[p], seen + slabs[i], w, b, p)
        decreases todo
      {
        var p :| p in todo;
        var h := CountSlab(hist[p], slabs[i], w, b, wide, p, seen);
        hist := hist[p := h];
        todo := todo - {p};
      }
    }
  }

  // ---- narrowing one rank ----

  /** Rank r falls among the keys with prefix p, and below of them have smaller prefixes. */
  ghost predicate Narrowed(keys: seq<nat>, w: nat, r: nat, prefix: nat, below: nat)
    requires w > 0
  {
    below == Below(keys, w, prefix, |keys|) && below <= r < below + Equal(keys, w, prefix, |keys|)
  }

  /** np.cumsum */
  function CumSum(hist: seq<nat>, n: nat): nat
    requires n <= |hist|
  {
    if n == 0 then 0 else CumSum(hist, n - 1) + hist[n - 1]
  }

  lemma {:induction false} CumSumIsBelow(hist: seq<nat>, keys: seq<nat>, w: nat, b: nat, p: nat, n: nat)
    requires w > 0 && IsHistogram(hist, keys, w, b, p) && n <= b
    ensures CumSum(hist, n) == Below(keys, w, Pair(p, b, n), |keys|) - Below(keys, w, Pair(p, b, 0), |keys|)
  {
    if n > 0 {
      CumSumIsBelow(hist, keys, w, b, p, n - 1);
      BelowNext(keys, w, Pair(p, b, n - 1), |keys|);
    }
  }

  /** np.searchsorted(c, x, side="right"): the first digit whose running count exceeds x. */
  method FirstAbove(hist: seq<nat>, x: nat) returns (d: nat, before: nat)
    requires x < CumSum(hist, |hist|)
    ensures d < |hist| && before == CumSum(hist, d) && CumSum(hist, d) <= x < CumSum(hist, d + 1)
  {
    d, before := 0, 0;
    while before + hist[d] <= x
      invariant d < |hist| && before == CumSum(hist, d) && before <= x
      decreases |hist| - d
    {
      before := before + hist[d];
      d := d + 1;
      if d == |hist| {
        assert false;
      }
    }
  }

  /** One rank, one pass: the next digit, and the keys left below. */
  method Narrow(hist: seq<nat>, ghost keys: seq<nat>, w: nat, b: nat, ghost wide: nat, r: nat, prefix: nat, below: nat)
    returns (prefix': nat, below': nat)
    requires w > 0 && b > 0 && wide == w * b && wide > 0 && IsHistogram(hist, keys, w, b, prefix)
    requires Narrowed(keys, wide, r, prefix, below)
    ensures Narrowed(keys, w, r, prefix', below')
  {
    GroupCounts(hist, keys, w, b, wide, prefix);
    var d, before := FirstAbove(hist, r - below);
    CumSumIsBelow(hist, keys, w, b, prefix, d);
    CumSumIsBelow(hist, keys, w, b, prefix, d + 1);
    BelowNext(keys, w, Pair(prefix, b, d), |keys|);
    prefix' := prefix * b + d;
    below' := below + before;
  }

  lemma {:induction false} GroupCounts(hist: seq<nat>, keys: seq<nat>, w: nat, b: nat, wide: nat, p: nat)
    requires w > 0 && b > 0 && wide == w * b && wide > 0 && IsHistogram(hist, keys, w, b, p)
    ensures Below(keys, wide, p, |keys|) == Below(keys, w, Pair(p, b, 0), |keys|)
    ensures CumSum(hist, b) == Equal(keys, wide, p, |keys|)
  {
    BelowRefines(keys, w, b, wide, p, |keys|);
    BelowRefines(keys, w, b, wide, p + 1, |keys|);
    Spread(p, 1, b);
    BelowNext(keys, wide, p, |keys|);
    CumSumIsBelow(hist, keys, w, b, p, b);
  }

  ghost predicate AllNarrowed(keys: seq<nat>, w: nat, ranks: seq<nat>, prefix: seq<nat>, below: seq<nat>)
    requires w > 0
  {
    |prefix| == |below| == |ranks| && forall i :: 0 <= i < |ranks| ==> Narrowed(keys, w, ranks[i], prefix[i], below[i])
  }

  function GroupsOf(prefix: seq<nat>): set<nat> {
    set i | 0 <= i < |prefix| :: prefix[i]
  }

  /** One pass narrows every requested rank by a digit. */
  method Pass(slabs: seq<seq<nat>>, w: nat, b: nat, wide: nat, ranks: seq<nat>, prefix: seq<nat>, below: seq<nat>)
    returns (prefix': seq<nat>, below': seq<nat>)
    requires w > 0 && b > 0 && wide == w * b && wide > 0 && AllNarrowed(KeysOf(slabs, |slabs|), wide, ranks, prefix, below)
    ensures AllNarrowed(KeysOf(slabs, |slabs|), w, ranks, prefix', below')
  {
    ghost var keys := KeysOf(slabs, |slabs|);
    var hist := Histograms(slabs, w, b, wide, GroupsOf(prefix));
    prefix', below' := [], [];
    for i := 0 to |ranks|
      invariant |prefix'| == |below'| == i
      invariant forall k :: 0 <= k < i ==> Narrowed(keys, w, ranks[k], prefix'[k], below'[k])
    {
      assert prefix[i] in GroupsOf(prefix);
      var p, q := Narrow(hist[prefix[i]], keys, w, b, wide, ranks[i], prefix[i], below[i]);
      prefix', below' := prefix' + [p], below' + [q];
    }
  }

  lemma {:induction false} StartNarrowed(keys: seq<nat>, wide: nat, n: nat)
    requires wide > 0 && n <= |keys| && forall i :: 0 <= i < |keys| ==> keys[i] < wide
    ensures Below(keys, wide, 0, n) == 0 && Equal(keys, wide, 0, n) == n
  {
    if n > 0 {
      StartNarrowed(keys, wide, n - 1);
      SplitBelow(keys[n - 1], 1, wide);
    }
  }

  /** quantiles up to the interpolation: after passes of 16, 8 and 8 bits, each requested
    * rank's key is the one at that rank. */
  method Select(slabs: seq<seq<nat>>, ranks: seq<nat>) returns (keys: seq<nat>)
    requires forall i :: 0 <= i < |KeysOf(slabs, |slabs|)| ==> IsBits(KeysOf(slabs, |slabs|)[i])
    requires forall i :: 0 <= i < |ranks| ==> ranks[i] < |KeysOf(slabs, |slabs|)|
    ensures |keys| == |ranks|
    ensures forall i :: 0 <= i < |ranks| ==> IsAtRank(KeysOf(slabs, |slabs|), keys[i], ranks[i])
  {
    ghost var all := KeysOf(slabs, |slabs|);
    var prefix, below := Zeros(|ranks|), Zeros(|ranks|);
    StartNarrowed(all, 0x1_0000_0000, |all|);
    prefix, below := Pass(slabs, 0x1_0000, 0x1_0000, 0x1_0000_0000, ranks, prefix, below);
    prefix, below := Pass(slabs, 0x100, 0x100, 0x1_0000, ranks, prefix, below);
    prefix, below := Pass(slabs, 1, 0x100, 0x100, ranks, prefix, below);
    keys := prefix;
    forall i | 0 <= i < |ranks| ensures IsAtRank(all, keys[i], ranks[i]) {
      BelowNext(all, 1, keys[i], |all|);
    }
  }

  // ---- the key at a rank ----

  /** Fewer than or exactly r keys are smaller than k, and more than r are not larger. */
  ghost predicate IsAtRank(keys: seq<nat>, k: nat, r: nat) {
    Below(keys, 1, k, |keys|) <= r < Below(keys, 1, k + 1, |keys|)
  }

  ghost predicate Ascending(s: seq<nat>) {
    forall i, j :: 0 <= i <= j < |s| ==> s[i] <= s[j]
  }

  /** Counting does not depend on the order of the keys. */
  lemma {:induction false} BelowOfSorted(keys: seq<nat>, s: seq<nat>, p: nat)
    requires multiset(keys) == multiset(s)
    ensures Below(keys, 1, p, |keys|) == Below(s, 1, p, |s|)
    decreases |keys|
  {
    if keys == [] {
      assert |multiset(s)| == |s|;
    } else {
      var k := keys[|keys| - 1];
      assert k in multiset(s);
      var j :| 0 <= j < |s| && s[j] == k;
      var rest := s[..j] + s[j + 1..];
      SameRest(keys, s, k, j);
      BelowOfSorted(keys[..|keys| - 1], rest, p);
      BelowPrefix(keys[..|keys| - 1], keys, p, |keys| - 1);
      BelowAppend(s[..j], s[j + 1..], p, |s| - j - 1);
      BelowAppend(s[..j], s[j..], p, |s| - j);
      BelowCons(s[j..], p, |s| - j);
      assert s == s[..j] + s[j..];
    }
  }

  lemma {:induction false} SameRest(keys: seq<nat>, s: seq<nat>, k: nat, j: nat)
    requires multiset(keys) == multiset(s) && keys != [] && keys[|keys| - 1] == k && j < |s| && s[j] == k
    ensures multiset(keys[..|keys| - 1]) == multiset(s[..j] + s[j + 1..])
  {
    assert keys == keys[..|keys| - 1] + [k];
    assert s == s[..j] + [k] + s[j + 1..];
    assert multiset(keys) - multiset{k} == multiset(keys[..|keys| - 1]);
    assert multiset(s) - multiset{k} == multiset(s[..j] + s[j + 1..]);
  }

  lemma {:induction false} BelowPrefix(a: seq<nat>, c: seq<nat>, p: nat, n: nat)
    requires n <= |a| && a <= c
    ensures Below(a, 1, p, n) == Below(c, 1, p, n)
  {
    if n > 0 { BelowPrefix(a, c, p, n - 1); }
  }

  lemma {:induction false} BelowAppend(a: seq<nat>, b: seq<nat>, p: nat, n: nat)
    requires n <= |b|
    ensures Below(a + b, 1, p, |a| + n) == Below(a, 1, p, |a|) + Below(b, 1, p, n)
    decreases n
  {
    if n == 0 {
      BelowPrefix(a, a + b, p, |a|);
    } else {
      BelowAppend(a, b, p, n - 1);
      assert (a + b)[|a| + n - 1] == b[n - 1];
    }
  }

  lemma {:induction false} BelowCons(s: seq<nat>, p: nat, n: nat)
    requires 0 < n <= |s|
    ensures Below(s, 1, p, n) == Below(s[1..], 1, p, n - 1) + if s[0] < p then 1 else 0
  {
    if n > 1 { BelowCons(s, p, n - 1); }
  }

  lemma {:induction false} BelowInSorted(s: seq<nat>, p: nat, n: nat)
    requires Ascending(s) && n <= |s|
    ensures Below(s, 1, p, n) <= n
    ensures forall i :: 0 <= i < n ==> (i < Below(s, 1, p, n) <==> s[i] < p)
  {
    if n > 0 {
      BelowInSorted(s, p, n - 1);
    }
  }

  /** The selected key is the one at that position of the sorted keys. */
  lemma {:induction false} SelectedIsSorted(keys: seq<nat>, s: seq<nat>, k: nat, r: nat)
    requires multiset(keys) == multiset(s) && Ascending(s) && IsAtRank(keys, k, r)
    ensures r < |s| && s[r] == k
  {
    BelowOfSorted(keys, s, k);
    BelowOfSorted(keys, s, k + 1);
    BelowInSorted(s, k, |s|);
    BelowInSorted(s, k + 1, |s|);
  }

  // ---- from float data to float quantiles ----

  datatype Keys = Keys(k: seq<nat>) | HasNaN

  /** The keys of a slab, or an error when it holds a NaN. */
  method SlabKeys(x: seq<nat>) returns (r: Keys)
    requires forall i :: 0 <= i < |x| ==> IsBits(x[i])
    ensures r.HasNaN? <==> exists i :: 0 <= i < |x| && IsNaN(x[i])
    ensures r.Keys? ==> |r.k| == |x| && forall i :: 0 <= i < |x| ==> r.k[i] == SortKey(x[i])
  {
    var k: seq<nat> := [];
    for i := 0 to |x|
      invariant |k| == i && forall j :: 0 <= j < i ==> !IsNaN(x[j]) && k[j] == SortKey(x[j])
    {
      if IsNaN(x[i]) {
        return HasNaN;
      }
      k := k + [SortKey(x[i])];
    }
    return Keys(k);
  }

  /** The selected key's value occurs in the data, keys below it belong to values that are
    * not larger, and the other keys to values that are not smaller. */
  lemma {:induction false} SelectedValue(data: seq<nat>, keys: seq<nat>, k: nat, r: nat)
    requires |keys| == |data| && forall i :: 0 <= i < |data| ==> IsBits(data[i]) && keys[i] == SortKey(data[i])
    requires IsAtRank(keys, k, r)
    ensures IsBits(k) && KeyValue(k) in data
    ensures forall i :: 0 <= i < |data| && keys[i] <= k ==> FloatValue(data[i]) <= FloatValue(KeyValue(k))
    ensures forall i :: 0 <= i < |data| && keys[i] >= k ==> FloatValue(data[i]) >= FloatValue(KeyValue(k))
  {
    BelowNext(keys, 1, k, |keys|);
    var at := FindEqual(keys, k, |keys|);
    KeyValueUndoesSortKey(data[at]);
    forall i | 0 <= i < |data|
      ensures keys[i] <= k ==> FloatValue(data[i]) <= FloatValue(KeyValue(k))
      ensures keys[i] >= k ==> FloatValue(data[i]) >= FloatValue(KeyValue(k))
    {
      KeysSortLikeFloats(data[i], data[at]);
      KeysSortLikeFloats(data[at], data[i]);
    }
  }

  lemma {:induction false} FindEqual(keys: seq<nat>, k: nat, n: nat) returns (i: nat)
    requires n <= |keys| && Equal(keys, 1, k, n) > 0
    ensures i < n && keys[i] == k
  {
    if High(keys[n - 1], 1) == k {
      i := n - 1;
    } else {
      i := FindEqual(keys, k, n - 1);
    }
  }
}
