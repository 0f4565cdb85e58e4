/** Query bounds. Decoded values are float32 while bounds are double and may be
  * infinite; a bound can be moved to a float without changing which values match. */
module FloatBounds {

  /** A real number or an infinity, in the order of IEEE 754 comparisons without NaN. */
  datatype Ext = NegInf | Fin(r: real) | PosInf
  {
    predicate Less(that: Ext) {
      match (this, that)
      case (NegInf, NegInf) => false
      case (NegInf, _) => true
      case (Fin(a), Fin(b)) => a < b
      case (Fin(_), PosInf) => true
      case _ => false
    }

    predicate AtMost(that: Ext) {
      this == that || Less(that)
    }
  }

  /** The value predicate of a query: lo < v <= hi. */
  predicate InRange(v: Ext, lo: Ext, hi: Ext) {
    lo.Less(v) && v.AtMost(hi)
  }

  /** How many values satisfy lo < v <= hi. */
  function CountRange(v: seq<Ext>, lo: Ext, hi: Ext): (n: nat)
    ensures n <= |v|
  {
    if v == [] then 0 else (if InRange(v[0], lo, hi) then 1 else 0) + CountRange(v[1..], lo, hi)
  }

  lemma {:induction false} CountRangeSnoc(v: seq<Ext>, x: Ext, lo: Ext, hi: Ext)
    ensures CountRange(v + [x], lo, hi) == CountRange(v, lo, hi) + if InRange(x, lo, hi) then 1 else 0
  {
    if v == [] {
      assert v + [x] == [x];
    } else {
      assert (v + [x])[1..] == v[1..] + [x];
      CountRangeSnoc(v[1..], x, lo, hi);
    }
  }

  /** count_in_range: an open upper end needs the one comparison with lo only. */
  method CountInRange(v: seq<Ext>, lo: Ext, hi: Ext) returns (c: nat)
    ensures c == CountRange(v, lo, hi)
  {
    c := 0;
    for i := 0 to |v|
      invariant c == CountRange(v[..i], lo, hi)
    {
      CountRangeSnoc(v[..i], v[i], lo, hi);
      assert v[..i + 1] == v[..i] + [v[i]];
      if hi == PosInf {
        c := c + if lo.Less(v[i]) then 1 else 0;
      } else {
        c := c + if InRange(v[i], lo, hi) then 1 else 0;
      }
    }
    assert v[..|v|] == v;
  }

  /** The float32 values from -inf to +inf, in increasing order. */
  ghost predicate IsGrid(grid: seq<Ext>) {
    && |grid| >= 2 && grid[0] == NegInf && grid[|grid| - 1] == PosInf
    && forall i, j :: 0 <= i < j < |grid| ==> grid[i].Less(grid[j])
  }

  /** f is d converted to float32: rounding is monotone and fixes every float, so
    * no float lies strictly between f and d. */
  ghost predicate IsCast(grid: seq<Ext>, d: Ext, f: Ext) {
    && f in grid
    && forall g :: g in grid ==> (g.AtMost(d) ==> g.AtMost(f)) && (d.AtMost(g) ==> f.AtMost(g))
  }

  /** nextafterf(f, -inf) */
  ghost function Below(grid: seq<Ext>, f: Ext): (g: Ext)
    requires IsGrid(grid) && f in grid
    ensures g in grid && g.AtMost(f)
    ensures forall h :: h in grid && h.Less(f) ==> h.AtMost(g)
    ensures f != NegInf ==> g.Less(f)
  {
    var i :| 0 <= i < |grid| && grid[i] == f;
    if i == 0 then f
    else
      assert grid[i - 1].Less(f);
      assert forall h :: h in grid && h.Less(f) ==> h.AtMost(grid[i - 1]) by {
        forall h | h in grid && h.Less(f) ensures h.AtMost(grid[i - 1]) {
          var j :| 0 <= j < |grid| && grid[j] == h;
          assert j < i;
        }
      }
      grid[i - 1]
  }

  /** float_at_most: the cast, stepped down when it went above d. */
  ghost function FloatAtMost(grid: seq<Ext>, d: Ext, cast: Ext): Ext
    requires IsGrid(grid) && IsCast(grid, d, cast)
  {
    if d.Less(cast) then Below(grid, cast) else cast
  }

  /** Comparing a float with the rounded-down bound is comparing it with the bound. */
  lemma FloatAtMostCompares(grid: seq<Ext>, d: Ext, cast: Ext, v: Ext)
    requires IsGrid(grid) && IsCast(grid, d, cast) && v in grid
    ensures var f := FloatAtMost(grid, d, cast);
            f in grid && (d.Less(v) <==> f.Less(v)) && (v.AtMost(d) <==> v.AtMost(f))
  {
  }

  /** _below_f32: the largest float strictly below x, or -inf when there is none. */
  ghost function BelowFloat(grid: seq<Ext>, x: Ext, cast: Ext): Ext
    requires IsGrid(grid) && IsCast(grid, x, cast)
  {
    if x.AtMost(cast) then Below(grid, cast) else cast
  }

  /** For a float above -inf, at least x means above the float below x, and below x
    * means at most that float. */
  lemma BelowFloatCompares(grid: seq<Ext>, x: Ext, cast: Ext, v: Ext)
    requires IsGrid(grid) && IsCast(grid, x, cast) && v in grid && v != NegInf
    ensures var f := BelowFloat(grid, x, cast);
            (x.AtMost(v) <==> f.Less(v)) && (v.Less(x) <==> v.AtMost(f))
  {
  }

  // ---- range_bounds ----

  /** A Python float or None. */
  datatype Limit = None | NaN | Some(x: Ext)

  datatype Bounds = Bounds(lo: Ext, hi: Ext) | ValueError

  ghost function RangeBounds(grid: seq<Ext>, lo: Limit, hi: Limit, loInclusive: bool, hiInclusive: bool,
                             castLo: Ext, castHi: Ext): Bounds
    requires IsGrid(grid)
    requires lo.Some? ==> IsCast(grid, lo.x, castLo)
    requires hi.Some? ==> IsCast(grid, hi.x, castHi)
  {
    if lo.NaN? || hi.NaN? then ValueError
    else if lo.Some? && hi.Some? && hi.x.Less(lo.x) then ValueError
    else
      var a := if lo.None? then NegInf else if loInclusive then BelowFloat(grid, lo.x, castLo) else lo.x;
      var b := if hi.None? then PosInf else if hiInclusive then hi.x else BelowFloat(grid, hi.x, castHi);
      Bounds(a, b)
  }

  /** What the caller asked for. */
  predicate Requested(v: Ext, lo: Limit, hi: Limit, loInclusive: bool, hiInclusive: bool) {
    && (lo.Some? ==> if loInclusive then lo.x.AtMost(v) else lo.x.Less(v))
    && (hi.Some? ==> if hiInclusive then v.AtMost(hi.x) else v.Less(hi.x))
  }

  /** The range asked for takes in -inf, which no half-open range can. */
  predicate WantsNegInf(lo: Limit, hi: Limit, loInclusive: bool, hiInclusive: bool) {
    && (lo.Some? ==> loInclusive && lo.x == NegInf)
    && (hi.Some? ==> hiInclusive || hi.x != NegInf)
  }

  /** range_bounds fails exactly on a NaN or crossed bounds. Otherwise the half-open range
    * selects a float32 value exactly as asked, unless that value is -inf and was asked for. */
  lemma {:induction false} RangeBoundsSelectSame(grid: seq<Ext>, lo: Limit, hi: Limit, loInclusive: bool, hiInclusive: bool,
                              castLo: Ext, castHi: Ext, v: Ext)
    requires IsGrid(grid) && v in grid
    requires lo.Some? ==> IsCast(grid, lo.x, castLo)
    requires hi.Some? ==> IsCast(grid, hi.x, castHi)
    ensures var o := RangeBounds(grid, lo, hi, loInclusive, hiInclusive, castLo, castHi);
            && (o.ValueError? <==> lo.NaN? || hi.NaN? || (lo.Some? && hi.Some? && hi.x.Less(lo.x)))
            && (o.Bounds? ==> ((InRange(v, o.lo, o.hi) <==> Requested(v, lo, hi, loInclusive, hiInclusive))
                               <==> v != NegInf || !WantsNegInf(lo, hi, loInclusive, hiInclusive)))
  {
    if v != NegInf {
      if lo.Some? { BelowFloatCompares(grid, lo.x, castLo, v); }
      if hi.Some? { BelowFloatCompares(grid, hi.x, castHi, v); }
    }
  }

  /** The failing input: -inf itself, with no bounds at all. */
  lemma {:induction false} NegInfIsMissed(grid: seq<Ext>)
    requires IsGrid(grid)
    ensures var o := RangeBounds(grid, None, None, false, true, NegInf, NegInf);
            o.Bounds? && Requested(NegInf, None, None, false, true) && !InRange(NegInf, o.lo, o.hi)
  {
  }
}
