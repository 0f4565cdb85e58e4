/** Index arithmetic in C order. */
module MixedRadix {

  function Pair(a: nat, n: nat, b: nat): nat {
    a * n + b
  }

  function High(x: nat, n: nat): nat
    requires n > 0
  {
    x / n
  }

  function Low(x: nat, n: nat): nat
    requires n > 0
  {
    x % n
  }

  lemma {:induction false} PairSplits(a: nat, n: nat, b: nat)
    requires b < n
    ensures Pair(a, n, b) / n == a && Pair(a, n, b) % n == b
  {
    var x := Pair(a, n, b);
    DigitsAreUnique(x / n, x % n, a, b, n);
  }

  lemma {:induction false} DigitsAreUnique(p: int, q: int, a: int, b: int, n: nat)
    requires 0 <= q < n && 0 <= b < n && p * n + q == a * n + b
    ensures p == a && q == b
  {
    MulDifference(p, a, n);
    if p < a {
      MulGrows(1, a - p, n);
    } else if a < p {
      MulGrows(1, p - a, n);
    }
  }

  lemma {:induction false} MulDifference(p: int, a: int, n: int)
    ensures (p - a) * n == p * n - a * n && (a - p) * n == a * n - p * n
  {
  }

  lemma {:induction false} MulGrows(a: int, b: int, n: nat)
    requires a <= b
    ensures a * n <= b * n
  {
  }

  lemma {:induction false} SplitPairs(x: nat, n: nat)
    requires n > 0
    ensures Pair(x / n, n, x % n) == x && x % n < n
  {
  }

  lemma {:induction false} PairBelow(a: nat, m: nat, b: nat, n: nat)
    requires a < m && b < n
    ensures Pair(a, n, b) < m * n
  {
    assert (a + 1) * n <= m * n;
    assert (a + 1) * n == a * n + n;
  }

  lemma {:induction false} SplitBelow(x: nat, m: nat, n: nat)
    requires n > 0 && x < m * n
    ensures x / n < m
  {
    SplitPairs(x, n);
    if x / n >= m {
      MulGrows(m, x / n, n);
    }
  }

  /** Pairs compare like their parts: chunk_id << 32 | block_id orders like (chunk, block). */
  lemma {:induction false} PairOrdered(a: nat, b: nat, c: nat, d: nat, n: nat)
    requires b < n && d < n
    ensures Pair(a, n, b) < Pair(c, n, d) <==> a < c || (a == c && b < d)
  {
    if a < c {
      MulGrows(a + 1, c, n);
      Spread(a, 1, n);
    } else if c < a {
      MulGrows(c + 1, a, n);
      Spread(c, 1, n);
    }
  }

  // ---- three dimensions ----

  function Flat(i: nat, j: nat, k: nat, nj: nat, nk: nat): nat {
    Pair(Pair(i, nj, j), nk, k)
  }

  function First(x: nat, nj: nat, nk: nat): nat
    requires nj > 0 && nk > 0
  {
    Positive(nj, nk);
    x / (nj * nk)
  }

  function Second(x: nat, nj: nat, nk: nat): nat
    requires nj > 0 && nk > 0
  {
    (x / nk) % nj
  }

  function Third(x: nat, nk: nat): nat
    requires nk > 0
  {
    x % nk
  }

  lemma {:induction false} Positive(a: nat, b: nat)
    requires a > 0 && b > 0
    ensures a * b > 0
  {
  }

  /** Dividing twice is dividing by the product. */
  lemma {:induction false} DivideTwice(x: nat, a: nat, b: nat)
    requires a > 0 && b > 0
    ensures a * b > 0 && x / (a * b) == (x / b) / a
  {
    Positive(a, b);
    SplitPairs(x, b);
    SplitPairs(x / b, a);
    Nested(x, (x / b) / a, (x / b) % a, x % b, a, b);
  }

  lemma {:induction false} Nested(x: nat, q: nat, r: nat, low: nat, a: nat, b: nat)
    requires x == Pair(Pair(q, a, r), b, low) && r < a && low < b && a * b > 0
    ensures x / (a * b) == q
  {
    PairBelow(r, a, low, b);
    Regroup(q, a, r, b);
    PairSplits(q, a * b, Pair(r, b, low));
  }

  lemma {:induction false} Regroup(q: nat, a: nat, r: nat, b: nat)
    ensures (q * a + r) * b == q * (a * b) + r * b
  {
  }

  lemma {:induction false} FlatSplits(i: nat, j: nat, k: nat, nj: nat, nk: nat)
    requires j < nj && k < nk
    ensures var x := Flat(i, j, k, nj, nk);
            First(x, nj, nk) == i && Second(x, nj, nk) == j && Third(x, nk) == k
  {
    var x := Flat(i, j, k, nj, nk);
    PairSplits(Pair(i, nj, j), nk, k);
    PairSplits(i, nj, j);
    DivideTwice(x, nj, nk);
  }

  lemma {:induction false} SplitFlats(x: nat, ni: nat, nj: nat, nk: nat)
    requires nj > 0 && nk > 0 && x < ni * nj * nk
    ensures Flat(First(x, nj, nk), Second(x, nj, nk), Third(x, nk), nj, nk) == x
    ensures First(x, nj, nk) < ni && Second(x, nj, nk) < nj && Third(x, nk) < nk
  {
    SplitPairs(x, nk);
    SplitPairs(x / nk, nj);
    DivideTwice(x, nj, nk);
    SplitBelow(x, ni * nj, nk);
    SplitBelow(x / nk, ni, nj);
  }

  lemma {:induction false} FlatBelow(i: nat, j: nat, k: nat, ni: nat, nj: nat, nk: nat)
    requires i < ni && j < nj && k < nk
    ensures Flat(i, j, k, nj, nk) < ni * nj * nk
  {
    PairBelow(i, ni, j, nj);
    PairBelow(Pair(i, nj, j), ni * nj, k, nk);
  }

  /** The first of three coordinates that differ decides. */
  predicate Precedes(i: nat, j: nat, k: nat, l: nat, m: nat, n: nat) {
    i < l || (i == l && (j < m || (j == m && k < n)))
  }

  /** C order is the lexicographic order of the coordinates. */
  lemma {:induction false} FlatOrdered(i: nat, j: nat, k: nat, l: nat, m: nat, n: nat, nj: nat, nk: nat)
    requires j < nj && k < nk && m < nj && n < nk
    ensures Flat(i, j, k, nj, nk) < Flat(l, m, n, nj, nk) <==> Precedes(i, j, k, l, m, n)
  {
    PairOrdered(Pair(i, nj, j), k, Pair(l, nj, m), n, nk);
    PairOrdered(i, j, l, m, nj);
    PairOrdered(l, m, i, j, nj);
  }

  /** A larger first index shifts the flat one by whole planes. */
  lemma {:induction false} FlatShifts(i: nat, d: nat, j: nat, k: nat, nj: nat, nk: nat)
    ensures Flat(i + d, j, k, nj, nk) == Flat(i, j, k, nj, nk) + d * nj * nk
  {
    assert Pair(i + d, nj, j) == Pair(i, nj, j) + d * nj;
    Spread(Pair(i, nj, j), d * nj, nk);
  }

  lemma {:induction false} Spread(a: nat, b: nat, n: nat)
    ensures (a + b) * n == a * n + b * n
  {
  }

  // ---- equal steps ----

  /** n * w, as n steps of width w. */
  function Stride(n: nat, w: nat): nat {
    if n == 0 then 0 else Stride(n - 1, w) + w
  }

  lemma {:induction false} StrideIs(n: nat, w: nat)
    ensures Stride(n, w) == n * w
  {
    if n > 0 {
      StrideIs(n - 1, w);
      Spread(n - 1, 1, w);
    }
  }

  lemma {:induction false} StrideFits(i: nat, n: nat, w: nat)
    requires i < n
    ensures Stride(i, w) + w <= Stride(n, w)
    decreases n
  {
    if i < n - 1 { StrideFits(i, n - 1, w); }
  }
}
