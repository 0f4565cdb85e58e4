/** The two plane decoders of fastdec.c, proved against the bit-serial reference.
  * buf is the block followed by 8 padding bytes; pos and bits never reach past
  * the block, so every 8-byte load stays inside the buffer. */
module PlaneDecoder {
  import opened Bits
  import opened SerialDecoder

  const PLANES: nat := 32

  /** 0x5555555555555555 (from true) and 0xAAAAAAAAAAAAAAAA (from false). */
  function Alternating(first: bool, k: nat): (r: seq<bool>)
    ensures |r| == k && Alternates(r)
    ensures k > 0 ==> r[0] == first
    decreases k
  {
    if k == 0 then [] else [first] + Alternating(!first, k - 1)
  }

  /** The block ends at bit `end`; the decoder stands at end - bits. */
  ghost predicate InBlock(buf: seq<Byte>, end: nat, bits: nat) {
    bits <= end && end + 64 <= 8 * |buf|
  }

  type BitStream = seq<bool>

  /** The unread bits of the budget. */
  ghost function Unread(s: BitStream, end: nat, bits: nat): (r: seq<bool>)
    requires bits <= end <= |s|
    ensures |r| == bits
    decreases bits
  {
    if bits == 0 then [] else [s[end - bits]] + Unread(s, end, bits - 1)
  }

  lemma {:induction false} UnreadAt(s: BitStream, end: nat, bits: nat, i: nat)
    requires i < bits <= end <= |s|
    ensures Unread(s, end, bits)[i] == s[end - bits + i]
  {
    if i > 0 {
      UnreadAt(s, end, bits - 1, i - 1);
    }
  }

  lemma {:induction false} UnreadIsSlice(s: BitStream, end: nat, bits: nat)
    requires bits <= end <= |s|
    ensures Unread(s, end, bits) == s[end - bits..end]
    decreases bits
  {
    if bits > 0 {
      UnreadIsSlice(s, end, bits - 1);
    }
  }

  // ---- the reference on positions instead of sequences of unread bits ----

  datatype Cursor = Cursor(bits: nat, n: nat, x: Word)

  ghost function ScanAt(s: BitStream, end: nat, bits: nat, n: nat): (o: (nat, nat))
    requires bits <= end <= |s|
    ensures o.0 <= bits && n <= o.1 && (n < 64 ==> o.1 < 64)
  {
    if bits == 0 || n >= 63 then (bits, n)
    else if s[end - bits] then (bits - 1, n)
    else ScanAt(s, end, bits - 1, n + 1)
  }

  ghost function GroupsAt(s: BitStream, end: nat, c: Cursor): (o: Cursor)
    requires c.bits <= end <= |s|
    ensures o.bits <= c.bits && (c.n <= 64 ==> o.n <= 64)
    ensures c.bits > 0 && c.n < 64 ==> o.bits < c.bits
    decreases c.bits
  {
    if c.bits == 0 || c.n >= 64 then c
    else if !s[end - c.bits] then c.(bits := c.bits - 1)
    else
      var (bits1, n1) := ScanAt(s, end, c.bits - 1, c.n);
      GroupsAt(s, end, Cursor(bits1, n1 + 1, c.x[n1 := true]))
  }

  ghost function PlaneAt(s: BitStream, end: nat, bits: nat, n: nat, xs: seq<bool>): (o: Cursor)
    requires bits <= end <= |s| && |xs| <= n <= 64
    ensures o.bits <= bits && o.n <= 64
    ensures bits > 0 && (|xs| < n || n < 64) ==> o.bits < bits
    decreases n - |xs|
  {
    if |xs| < n && bits > 0 then PlaneAt(s, end, bits - 1, n, xs + [s[end - bits]])
    else GroupsAt(s, end, Cursor(bits, n, Pad(xs)))
  }

  ghost function PlanesAt(s: BitStream, end: nat, bits: nat, n: nat, k: nat, acc: seq<Word>): seq<Word>
    requires bits <= end <= |s| && n <= 64
    decreases bits
  {
    if bits == 0 || k == 0 then acc
    else
      var c := PlaneAt(s, end, bits, n, []);
      PlanesAt(s, end, c.bits, c.n, k - 1, acc + [c.x])
  }

  lemma {:induction false} ScanAtIsScan(s: BitStream, end: nat, bits: nat, n: nat)
    requires bits <= end <= |s|
    ensures var (bits1, n1) := ScanAt(s, end, bits, n);
            Scan(Unread(s, end, bits), n) == (Unread(s, end, bits1), n1)
  {
    if bits == 0 || n >= 63 {
    } else if !s[end - bits] {
      ScanAtIsScan(s, end, bits - 1, n + 1);
    }
  }

  lemma {:induction false} GroupsAtIsGroups(s: BitStream, end: nat, c: Cursor)
    requires c.bits <= end <= |s|
    ensures var o := GroupsAt(s, end, c);
            Groups(Unread(s, end, c.bits), c.n, c.x) == PlaneState(Unread(s, end, o.bits), o.n, o.x)
    decreases c.bits
  {
    if c.bits == 0 || c.n >= 64 {
    } else if s[end - c.bits] {
      var d := GroupsTurn(s, end, c);
      GroupsAtIsGroups(s, end, d);
    }
  }

  /** A group test 1 and the run behind it, on positions and on unread bits. */
  lemma {:induction false} GroupsTurn(s: BitStream, end: nat, c: Cursor) returns (d: Cursor)
    requires 0 < c.bits <= end <= |s| && c.n < 64 && s[end - c.bits]
    ensures d.bits < c.bits && GroupsAt(s, end, c) == GroupsAt(s, end, d)
    ensures Groups(Unread(s, end, c.bits), c.n, c.x) == Groups(Unread(s, end, d.bits), d.n, d.x)
  {
    d := GroupsAtNext(s, end, c);
    ScanAtIsScan(s, end, c.bits - 1, c.n);
    UnreadNext(s, end, c.bits);
    GroupsNext(Unread(s, end, c.bits), Unread(s, end, d.bits), c.n, d.n - 1, c.x);
  }

  lemma {:induction false} GroupsAtNext(s: BitStream, end: nat, c: Cursor) returns (d: Cursor)
    requires 0 < c.bits <= end <= |s| && c.n < 64 && s[end - c.bits]
    ensures 0 < d.n <= 64 && (d.bits, d.n - 1) == ScanAt(s, end, c.bits - 1, c.n) && d.x == c.x[d.n - 1 := true]
    ensures GroupsAt(s, end, c) == GroupsAt(s, end, d)
  {
    var (bits1, n1) := ScanAt(s, end, c.bits - 1, c.n);
    d := Cursor(bits1, n1 + 1, c.x[n1 := true]);
  }

  lemma {:induction false} UnreadNext(s: BitStream, end: nat, bits: nat)
    requires 0 < bits <= end <= |s|
    ensures Unread(s, end, bits)[0] == s[end - bits] && Unread(s, end, bits)[1..] == Unread(s, end, bits - 1)
  {
  }

  lemma {:induction false} GroupsNext(r: seq<bool>, t: seq<bool>, n: nat, m: nat, x: Word)
    requires r != [] && r[0] && n < 64 && Scan(r[1..], n) == (t, m)
    ensures m < 64 && Groups(r, n, x) == Groups(t, m + 1, x[m := true])
  {
  }

  lemma {:induction false} PlaneAtIsPlane(s: BitStream, end: nat, bits: nat, n: nat, xs: seq<bool>)
    requires bits <= end <= |s| && |xs| <= n <= 64
    ensures var o := PlaneAt(s, end, bits, n, xs);
            Plane(Unread(s, end, bits), n, xs) == PlaneState(Unread(s, end, o.bits), o.n, o.x)
    decreases n - |xs|
  {
    if |xs| < n && bits > 0 {
      PlaneAtIsPlane(s, end, bits - 1, n, xs + [s[end - bits]]);
    } else {
      GroupsAtIsGroups(s, end, Cursor(bits, n, Pad(xs)));
    }
  }

  lemma {:induction false} PlanesAtIsPlanes(s: BitStream, end: nat, bits: nat, n: nat, k: nat, acc: seq<Word>)
    requires bits <= end <= |s| && n <= 64
    ensures PlanesAt(s, end, bits, n, k, acc) == acc + Planes(Unread(s, end, bits), n, k)
    decreases bits
  {
    if bits == 0 || k == 0 {
    } else {
      var c := PlaneAt(s, end, bits, n, []);
      PlaneAtIsPlane(s, end, bits, n, []);
      PlanesAtIsPlanes(s, end, c.bits, c.n, k - 1, acc + [c.x]);
    }
  }

  /** The verbatim bits all at once: y holds them and nothing else. */
  lemma {:induction false} PlaneAtBulk(s: BitStream, end: nat, bits: nat, n: nat, xs: seq<bool>, m: nat, y: Word)
    requires bits <= end <= |s| && |xs| <= n <= 64
    requires m == if n - |xs| < bits then n - |xs| else bits
    requires forall j :: 0 <= j < |xs| ==> y[j] == xs[j]
    requires forall j :: |xs| <= j < 64 ==> y[j] == (j < |xs| + m && s[end - bits + j - |xs|])
    ensures PlaneAt(s, end, bits, n, xs) == GroupsAt(s, end, Cursor(bits - m, n, y))
    decreases n - |xs|
  {
    if |xs| < n && bits > 0 {
      var k := |xs|;
      assert y[k] == s[end - bits + k - k];
      PlaneAtBulk(s, end, bits - 1, n, xs + [s[end - bits]], m - 1, y);
    } else {
      assert y == Pad(xs);
    }
  }

  // ---- the loops ----

  /** z zeros at once. */
  lemma {:induction false} ScanAtZeros(s: BitStream, end: nat, bits: nat, n: nat, z: nat)
    requires z <= bits <= end <= |s| && (z > 0 ==> n + z <= 63)
    requires forall p :: end - bits <= p < end - bits + z ==> !s[p]
    ensures ScanAt(s, end, bits, n) == ScanAt(s, end, bits - z, n + z)
  {
    if z > 0 {
      ScanAtZeros(s, end, bits - 1, n + 1, z - 1);
    }
  }

  /** The next 1 of the stream is z bits behind pos, or beyond what one load shows. */
  ghost predicate IsNextOne(s: BitStream, pos: nat, z: nat) {
    && pos + 57 <= |s| && (z < 57 ==> s[pos + z])
    && forall p :: pos <= p < pos + z && p < pos + 57 ==> !s[p]
  }

  /** ctz of a peek. */
  method NextOne(buf: seq<Byte>, ghost s: BitStream, pos: nat) returns (z: nat)
    requires s == Stream(buf) && pos + 57 <= 8 * |buf|
    ensures IsNextOne(s, pos, z)
  {
    var w := Peek(buf, pos);
    z := Ctz(w);
    forall p | pos <= p < pos + z && p < pos + 57 ensures !s[p] {
      PeekBit(buf, pos, p - pos);
      assert !w[p - pos];
    }
    if z < 57 {
      PeekBit(buf, pos, z);
    }
  }

  /** One group test. */
  method Test(buf: seq<Byte>, ghost s: BitStream, pos: nat) returns (b: bool)
    requires s == Stream(buf) && pos + 57 <= 8 * |buf|
    ensures b == s[pos]
  {
    PeekBit(buf, pos, 0);
    b := Peek(buf, pos)[0];
  }

  /** One window of a run: a 1 within the limit ends it, else it is zeros all the way. */
  lemma {:induction false} ScanStep(s: BitStream, end: nat, bits: nat, n: nat, z: nat, lim: nat)
    requires bits <= end <= |s| && n < 64
    requires lim <= 56 && lim <= bits && lim <= 63 - n && IsNextOne(s, end - bits, z)
    ensures z < lim ==> ScanAt(s, end, bits, n) == (bits - z - 1, n + z)
    ensures z >= lim ==> ScanAt(s, end, bits, n) == ScanAt(s, end, bits - lim, n + lim)
  {
    ScanAtZeros(s, end, bits, n, if z < lim then z else lim);
  }

  /** At the end of the budget, or at the last coefficient, the scan is over. */
  lemma {:induction false} ScanEnds(s: BitStream, end: nat, bits: nat, n: nat)
    requires bits <= end <= |s| && (bits == 0 || n >= 63)
    ensures ScanAt(s, end, bits, n) == (bits, n)
  {
  }

  lemma {:induction false} MaskedBit(buf: seq<Byte>, pos: nat, m: nat, i: nat)
    requires m <= 56 && pos + 57 <= 8 * |buf| && i < 64
    ensures LowBits(Peek(buf, pos), m)[i] == (i < m && Stream(buf)[pos + i])
  {
    if i < m {
      PeekBit(buf, pos, i);
    }
  }

  /** The m verbatim bits of a plane: one load up to 56 bits, else two. */
  method ReadVerbatim(buf: seq<Byte>, pos: nat, m: nat) returns (x: Word)
    requires m <= 64 && pos + m + 64 <= 8 * |buf|
    ensures forall i :: 0 <= i < 64 ==> x[i] == (i < m && Stream(buf)[pos + i])
  {
    if m <= 56 {
      x := if m != 0 then LowBits(Peek(buf, pos), m) else Pad([]);
      forall i | 0 <= i < 64 ensures x[i] == (i < m && Stream(buf)[pos + i]) {
        MaskedBit(buf, pos, m, i);
      }
    } else {
      var lo := LowBits(Peek(buf, pos), 32);
      var hi := LowBits(Peek(buf, pos + 32), m - 32);
      x := Or(lo, ShiftLeft(hi, 32));
      TwoLoads(buf, pos, m, lo, hi);
    }
  }

  lemma {:induction false} TwoLoads(buf: seq<Byte>, pos: nat, m: nat, lo: Word, hi: Word)
    requires 32 <= m <= 64 && pos + m + 64 <= 8 * |buf|
    requires lo == LowBits(Peek(buf, pos), 32) && hi == LowBits(Peek(buf, pos + 32), m - 32)
    ensures forall i :: 0 <= i < 64 ==> Or(lo, ShiftLeft(hi, 32))[i] == (i < m && Stream(buf)[pos + i])
  {
    forall i | 0 <= i < 64 ensures Or(lo, ShiftLeft(hi, 32))[i] == (i < m && Stream(buf)[pos + i]) {
      MaskedBit(buf, pos, 32, i);
      if i >= 32 {
        MaskedBit(buf, pos + 32, m - 32, i - 32);
      }
    }
  }

  /** The scan for the next 1, up to 56 zeros at a time. */
  method ScanRun(buf: seq<Byte>, ghost s: BitStream, ghost end: nat, pos0: nat, bits0: nat, n0: nat)
    returns (pos: nat, bits: nat, n: nat)
    requires s == Stream(buf) && InBlock(buf, end, bits0) && pos0 + bits0 == end && n0 < 64
    ensures pos + bits == end && (bits, n) == ScanAt(s, end, bits0, n0)
  {
    pos, bits, n := pos0, bits0, n0;
    var limAll := 63 - n;
    if limAll > bits {
      limAll := bits;
    }
    while true
      invariant pos + bits == end && bits <= bits0 && n < 64
      invariant limAll == if 63 - n > bits then bits else 63 - n
      invariant ScanAt(s, end, bits, n) == ScanAt(s, end, bits0, n0)
      decreases limAll
    {
      var lim := if limAll < 56 then limAll else 56;
      var z := NextOne(buf, s, pos);
      ScanStep(s, end, bits, n, z, lim);
      if z < lim {
        n := n + z;
        bits := bits - (z + 1);
        pos := pos + z + 1;
        break;
      }
      n := n + lim;
      bits := bits - lim;
      pos := pos + lim;
      limAll := limAll - lim;
      if limAll == 0 {
        ScanEnds(s, end, bits, n);
        break;
      }
    }
  }

  /** One group test of the loop: a 0 ends the plane, a 1 adds the coefficient behind its run. */
  lemma {:induction false} GroupTurn(s: BitStream, end: nat, bits: nat, n: nat, x: Word)
    requires 0 < bits <= end <= |s| && n < 64
    requires forall i :: n <= i < 64 ==> !x[i]
    ensures !s[end - bits] ==> GroupsAt(s, end, Cursor(bits, n, x)) == Cursor(bits - 1, n, x)
    ensures var (bits1, n1) := ScanAt(s, end, bits - 1, n);
            s[end - bits] ==>
              && n1 < 64 && (forall i :: n1 < i < 64 ==> !AddPower(x, n1)[i])
              && GroupsAt(s, end, Cursor(bits, n, x)) == GroupsAt(s, end, Cursor(bits1, n1 + 1, AddPower(x, n1)))
  {
  }

  /** One turn of the loop below: a group test, and the run and coefficient behind a 1. */
  method OneGroup(buf: seq<Byte>, ghost s: BitStream, ghost end: nat, pos0: nat, bits0: nat, n0: nat, x0: Word)
    returns (more: bool, pos: nat, bits: nat, n: nat, x: Word)
    requires s == Stream(buf) && InBlock(buf, end, bits0) && pos0 + bits0 == end && bits0 > 0 && n0 < 64
    requires forall i :: n0 <= i < 64 ==> !x0[i]
    ensures pos + bits == end && bits < bits0 && n <= 64 && (more ==> forall i :: n <= i < 64 ==> !x[i])
    ensures GroupsAt(s, end, Cursor(bits0, n0, x0)) == if more then GroupsAt(s, end, Cursor(bits, n, x)) else Cursor(bits, n, x)
  {
    GroupTurn(s, end, bits0, n0, x0);
    pos, bits, n, x := pos0 + 1, bits0 - 1, n0, x0;
    more := Test(buf, s, pos0);
    if more {
      pos, bits, n := ScanRun(buf, s, end, pos, bits, n);
      x := AddPower(x, n);
      n := n + 1;
    }
  }

  lemma {:induction false} GroupsEnd(s: BitStream, end: nat, c: Cursor)
    requires c.bits <= end <= |s| && (c.bits == 0 || c.n >= 64)
    ensures GroupsAt(s, end, c) == c
  {
  }

  /** The loop over the group tests of one plane, scanning runs of zeros with ctz. */
  method DecodeGroups(buf: seq<Byte>, ghost s: BitStream, ghost end: nat, pos0: nat, bits0: nat, n0: nat, x0: Word)
    returns (pos: nat, bits: nat, n: nat, x: Word)
    requires s == Stream(buf) && InBlock(buf, end, bits0) && pos0 + bits0 == end && n0 <= 64
    requires forall i :: n0 <= i < 64 ==> !x0[i]
    ensures pos + bits == end && Cursor(bits, n, x) == GroupsAt(s, end, Cursor(bits0, n0, x0))
  {
    pos, bits, n, x := pos0, bits0, n0, x0;
    while bits > 0 && n < 64
      invariant pos + bits == end && bits <= bits0 && n <= 64
      invariant forall i :: n <= i < 64 ==> !x[i]
      invariant GroupsAt(s, end, Cursor(bits, n, x)) == GroupsAt(s, end, Cursor(bits0, n0, x0))
      decreases bits
    {
      var more;
      more, pos, bits, n, x := OneGroup(buf, s, end, pos, bits, n, x);
      if !more {
        return;
      }
    }
    GroupsEnd(s, end, Cursor(bits, n, x));
  }

  /** One plane of decode_planes. */
  method OnePlane(buf: seq<Byte>, ghost s: BitStream, ghost end: nat, pos0: nat, bits0: nat, n0: nat)
    returns (pos: nat, bits: nat, n: nat, x: Word)
    requires s == Stream(buf) && InBlock(buf, end, bits0) && pos0 + bits0 == end && n0 <= 64
    ensures pos + bits == end && Cursor(bits, n, x) == PlaneAt(s, end, bits0, n0, [])
  {
    var m := if n0 < bits0 then n0 else bits0;
    x := ReadVerbatim(buf, pos0, m);
    PlaneAtBulk(s, end, bits0, n0, [], m, x);
    pos, bits, n, x := DecodeGroups(buf, s, end, pos0 + m, bits0 - m, n0, x);
  }

  /** The planes of the bits pos0..pos0 + bits0, by the bit-serial reference. */
  ghost function Decoded(buf: seq<Byte>, pos0: nat, bits0: nat): seq<Word>
    requires pos0 + bits0 <= 8 * |buf|
  {
    Planes(Stream(buf)[pos0..pos0 + bits0], 0, PLANES)
  }

  lemma {:induction false} DecodedStart(buf: seq<Byte>, pos0: nat, bits0: nat)
    requires pos0 + bits0 <= 8 * |buf|
    ensures PlanesAt(Stream(buf), pos0 + bits0, bits0, 0, PLANES, []) == Decoded(buf, pos0, bits0)
  {
    FromSlice(Stream(buf), pos0 + bits0, bits0, 0, PLANES, Stream(buf)[pos0..pos0 + bits0]);
  }

  lemma {:induction false} FromSlice(s: BitStream, end: nat, bits: nat, n: nat, k: nat, unread: BitStream)
    requires bits <= end <= |s| && n <= 64 && unread == s[end - bits..end]
    ensures PlanesAt(s, end, bits, n, k, []) == Planes(unread, n, k)
  {
    PlanesAtIsPlanes(s, end, bits, n, k, []);
    UnreadIsSlice(s, end, bits);
  }

  lemma {:induction false} PlanesTurn(s: BitStream, end: nat, bits: nat, n: nat, k: nat, done: seq<Word>)
    requires 0 < bits <= end <= |s| && n <= 64
    ensures var c := PlaneAt(s, end, bits, n, []);
            PlanesAt(s, end, bits, n, k + 1, done) == PlanesAt(s, end, c.bits, c.n, k, done + [c.x])
  {
  }

  lemma {:induction false} PlanesEnd(s: BitStream, end: nat, bits: nat, n: nat, k: nat, done: seq<Word>)
    requires bits <= end <= |s| && n <= 64 && (bits == 0 || k == 0)
    ensures PlanesAt(s, end, bits, n, k, done) == done
  {
  }

  /** planes[np++] = x */
  method Append(planes: array<Word>, np: nat, x: Word) returns (n: nat)
    requires np < planes.Length
    modifies planes
    ensures n == np + 1 && planes[..n] == old(planes[..np]) + [x]
  {
    planes[np] := x;
    n := np + 1;
  }

  /** The run-scanning decoder. */
  method DecodePlanes(buf: seq<Byte>, pos0: nat, bits0: nat, planes: array<Word>) returns (np: nat)
    requires pos0 + bits0 + 64 <= 8 * |buf| && planes.Length == PLANES
    modifies planes
    ensures np <= PLANES && planes[..np] == Decoded(buf, pos0, bits0)
  {
    ghost var end := pos0 + bits0;
    var pos: nat, bits: nat, n: nat := pos0, bits0, 0;
    np := 0;
    var k := PLANES;
    DecodedStart(buf, pos0, bits0);
    while bits > 0 && k > 0
      invariant pos + bits == end && n <= 64 && np + k == PLANES
      invariant PlanesAt(Stream(buf), end, bits, n, k, planes[..np]) == Decoded(buf, pos0, bits0)
      decreases k
    {
      k := k - 1;
      var x;
      PlanesTurn(Stream(buf), end, bits, n, k, planes[..np]);
      pos, bits, n, x := OnePlane(buf, Stream(buf), end, pos, bits, n);
      np := Append(planes, np, x);
    }
    PlanesEnd(Stream(buf), end, bits, n, k, planes[..np]);
  }

  /** What the window parser concludes from one 57-bit window. */
  datatype Window = NoNewBits | Whole(used: nat, add: nat, newBits: Word) | Fallback

  /** g and s: the set bits of the window that are group tests and coefficients. */
  function GroupMarks(w: Word): Word {
    Pdep(Alternating(true, |w|), w)
  }

  function CoefficientMarks(w: Word): Word {
    Pdep(Alternating(false, |w|), w)
  }

  /** Coefficient bits followed by a 0, that 0 inside the window. */
  function EndMarks(w: Word): Word {
    LowBits(And(CoefficientMarks(w), Not(ShiftRight(w, 1))), 56)
  }

  function Keep(w: Word, e: nat): Word
    requires e < 64
  {
    LowBits(Not(GroupMarks(w)), e + 1)
  }

  /** The pdep/pext parse of a window: the whole plane when it provably fits. */
  function ParseWindow(w: Word, bits: nat, n: nat): Window
  {
    if !w[0] then NoNewBits
    else if Ctz(EndMarks(w)) == 64 then Fallback
    else ParseUpTo(w, Ctz(EndMarks(w)), bits, n)
  }

  function ParseUpTo(w: Word, e: nat, bits: nat, n: nat): Window
    requires e < 64
  {
    if e + 2 <= bits && n + PopCount(Keep(w, e)) < 63
    then Whole(e + 2, PopCount(Keep(w, e)), Pext(w, Keep(w, e)))
    else Fallback
  }

  lemma {:induction false} SelectPrefix(src: seq<bool>, mask: seq<bool>, k: nat)
    requires |src| == |mask| && k <= |src|
    requires forall i :: k <= i < |src| ==> !mask[i]
    ensures PopCount(mask) == PopCount(mask[..k])
    ensures Select(src, mask) == Select(src[..k], mask[..k])
  {
    if src == [] {
    } else if k > 0 {
      SelectPrefix(src[1..], mask[1..], k - 1);
      assert src[..k][1..] == src[1..][..k - 1] && mask[..k][1..] == mask[1..][..k - 1];
    } else {
      SelectPrefix(src[1..], mask[1..], 0);
      assert src[1..][..0] == src[..0] && mask[1..][..0] == mask[..0];
    }
  }

  /** The marks that ParseWindow works with are the ones of the bitwise parse. */
  lemma {:induction false} WindowMarks(w: Word)
    ensures GroupMarks(w) == EveryOther(w, true)
    ensures CoefficientMarks(w) == EveryOther(w, false)
  {
    PdepAlternating(Alternating(true, |w|), w);
    PdepAlternating(Alternating(false, |w|), w);
  }

  lemma {:induction false} WholeIsPlaneEnd(w: Word, bits: nat, n: nat)
    requires ParseWindow(w, bits, n).Whole?
    ensures var o := ParseWindow(w, bits, n);
            && 2 <= o.used <= 57 && o.used <= bits && n + o.add < 63 && w[0]
            && PlaneEnd(w, false, o.used - 2)
            && o.add == |NewBits(w, false, o.used - 1)|
            && o.newBits == Pad(NewBits(w, false, o.used - 1))
  {
    WindowMarks(w);
    var s := EveryOther(w, false);
    var end := EndMarks(w);
    var e := Ctz(end);
    assert end[e] && e < 56;
    assert w[e + 1] == ShiftRight(w, 1)[e];
    forall j | 0 <= j < e ensures !(s[j] && !w[j + 1]) {
      assert !end[j];
      assert w[j + 1] == ShiftRight(w, 1)[j];
    }
    var keep := Keep(w, e);
    assert keep[..e + 1] == Kept(w, false)[..e + 1];
    SelectPrefix(w, keep, e + 1);
  }

  lemma {:induction false} WindowAgrees(buf: seq<Byte>, s: BitStream, end: nat, bits: nat, i: nat)
    requires s == Stream(buf) && InBlock(buf, end, bits) && i < bits && i < 57
    ensures LowBits(Peek(buf, end - bits), 57)[i] == Unread(s, end, bits)[i] == s[end - bits + i]
  {
    PeekBit(buf, end - bits, i);
    UnreadAt(s, end, bits, i);
  }

  /** What a parsed window promises: the state that the group loop would reach. */
  ghost predicate Reaches(o: Window, got: Cursor, bits: nat, n: nat, x: Word) {
    && (o.NoNewBits? ==> bits > 0 && got == Cursor(bits - 1, n, x))
    && (o.Whole? ==> o.used <= bits && n + o.add < 63 && got == Cursor(bits - o.used, n + o.add, Or(x, ShiftLeft(o.newBits, n))))
  }

  /** A plane taken from one window is the plane of the bit-serial reference. */
  lemma {:induction false} WindowIsPlane(buf: seq<Byte>, s: BitStream, end: nat, pos: nat, bits: nat, n: nat, x: Word, w: Word, o: Window)
    requires s == Stream(buf) && InBlock(buf, end, bits) && pos + bits == end && 0 < bits && n < 64
    requires w == LowBits(Peek(buf, pos), 57) && o == ParseWindow(w, bits, n) && forall i :: n <= i < 64 ==> !x[i]
    ensures Reaches(o, GroupsAt(s, end, Cursor(bits, n, x)), bits, n, x)
  {
    forall i | 0 <= i < 57 && i < bits ensures w[i] == Unread(s, end, bits)[i] {
      WindowAgrees(buf, s, end, bits, i);
    }
    WindowAgrees(buf, s, end, bits, 0);
    if ParseWindow(w, bits, n).Whole? {
      WholeIsGroups(s, end, bits, n, x, w);
    }
  }

  lemma {:induction false} WholeIsGroups(s: BitStream, end: nat, bits: nat, n: nat, x: Word, w: Word)
    requires bits <= end <= |s|
    requires ParseWindow(w, bits, n).Whole?
    requires forall i :: 0 <= i < 57 && i < bits ==> w[i] == Unread(s, end, bits)[i]
    requires forall i :: n <= i < 64 ==> !x[i]
    ensures var o := ParseWindow(w, bits, n);
            && o.used <= bits && n + o.add < 63
            && GroupsAt(s, end, Cursor(bits, n, x)) == Cursor(bits - o.used, n + o.add, Or(x, ShiftLeft(o.newBits, n)))
  {
    var o := ParseWindow(w, bits, n);
    WholeIsPlaneEnd(w, bits, n);
    var r := Unread(s, end, bits);
    WindowParses(w, r, n, x, false, o.used - 2);
    GroupsAtIsGroups(s, end, Cursor(bits, n, x));
    assert |r[o.used..]| == bits - o.used;
    PlaceIsShift(x, n, NewBits(w, false, o.used - 1));
  }

  lemma {:induction false} PlaceIsShift(x: Word, n: nat, ys: seq<bool>)
    requires n + |ys| <= 64
    ensures Place(x, n, ys) == Or(x, ShiftLeft(Pad(ys), n))
  {
    PlaceBits(x, n, ys);
  }

  /** The next window, parsed. */
  method ReadWindow(buf: seq<Byte>, ghost s: BitStream, ghost end: nat, pos: nat, bits: nat, n: nat, ghost x: Word) returns (o: Window)
    requires s == Stream(buf) && InBlock(buf, end, bits) && pos + bits == end && 0 < bits && n < 64
    requires forall i :: n <= i < 64 ==> !x[i]
    ensures Reaches(o, GroupsAt(s, end, Cursor(bits, n, x)), bits, n, x)
  {
    var w := LowBits(Peek(buf, pos), 57);
    o := ParseWindow(w, bits, n);
    WindowIsPlane(buf, s, end, pos, bits, n, x, w, o);
  }

  /** The rest of a plane of decode_planes_bmi2: from one window when it fits, else the loop. */
  method DecodeGroupsBmi2(buf: seq<Byte>, ghost s: BitStream, ghost end: nat, pos0: nat, bits0: nat, n0: nat, x0: Word)
    returns (pos: nat, bits: nat, n: nat, x: Word)
    requires s == Stream(buf) && InBlock(buf, end, bits0) && pos0 + bits0 == end && n0 <= 64
    requires forall i :: n0 <= i < 64 ==> !x0[i]
    ensures pos + bits == end && Cursor(bits, n, x) == GroupsAt(s, end, Cursor(bits0, n0, x0))
  {
    if bits0 > 0 && n0 < 64 {
      var o := ReadWindow(buf, s, end, pos0, bits0, n0, x0);
      if o.NoNewBits? {
        return pos0 + 1, bits0 - 1, n0, x0;
      } else if o.Whole? {
        return pos0 + o.used, bits0 - o.used, n0 + o.add, Or(x0, ShiftLeft(o.newBits, n0));
      }
    }
    pos, bits, n, x := DecodeGroups(buf, s, end, pos0, bits0, n0, x0);
  }

  method OnePlaneBmi2(buf: seq<Byte>, ghost s: BitStream, ghost end: nat, pos0: nat, bits0: nat, n0: nat)
    returns (pos: nat, bits: nat, n: nat, x: Word)
    requires s == Stream(buf) && InBlock(buf, end, bits0) && pos0 + bits0 == end && n0 <= 64
    ensures pos + bits == end && Cursor(bits, n, x) == PlaneAt(s, end, bits0, n0, [])
  {
    var m := if n0 < bits0 then n0 else bits0;
    x := ReadVerbatim(buf, pos0, m);
    PlaneAtBulk(s, end, bits0, n0, [], m, x);
    pos, bits, n, x := DecodeGroupsBmi2(buf, s, end, pos0 + m, bits0 - m, n0, x);
  }

  /** The window decoder. */
  method DecodePlanesBmi2(buf: seq<Byte>, pos0: nat, bits0: nat, planes: array<Word>) returns (np: nat)
    requires pos0 + bits0 + 64 <= 8 * |buf| && planes.Length == PLANES
    modifies planes
    ensures np <= PLANES && planes[..np] == Decoded(buf, pos0, bits0)
  {
    ghost var end := pos0 + bits0;
    var pos: nat, bits: nat, n: nat := pos0, bits0, 0;
    np := 0;
    var k := PLANES;
    DecodedStart(buf, pos0, bits0);
    while bits > 0 && k > 0
      invariant pos + bits == end && n <= 64 && np + k == PLANES
      invariant PlanesAt(Stream(buf), end, bits, n, k, planes[..np]) == Decoded(buf, pos0, bits0)
      decreases k
    {
      k := k - 1;
      var x;
      PlanesTurn(Stream(buf), end, bits, n, k, planes[..np]);
      pos, bits, n, x := OnePlaneBmi2(buf, Stream(buf), end, pos, bits, n);
      np := Append(planes, np, x);
    }
    PlanesEnd(Stream(buf), end, bits, n, k, planes[..np]);
  }
}
