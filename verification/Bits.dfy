/** Machine words as bit sequences (least significant bit first), and the bit
  * tricks that the plane decoders use: an unaligned 8-byte load, count of
  * trailing zeros, population count, and the BMI2 deposit and extract. */
module Bits {

  type Word = w: seq<bool> | |w| == 64 witness Zeros(64)

  type Byte = b: seq<bool> | |b| == 8 witness Zeros(8)

  /** k copies of b. It is chosen by its property, since Dafny would unfold a recursion on a
    * literal k completely wherever a word of zeros is mentioned. */
  function Repeat(b: bool, k: nat): (r: seq<bool>)
    ensures |r| == k
    ensures forall i :: 0 <= i < k ==> r[i] == b
  {
    RepeatExists(b, k);
    var r :| IsRepeat(r, b, k);
    r
  }

  predicate IsRepeat(r: seq<bool>, b: bool, k: nat) {
    |r| == k && forall i :: 0 <= i < k ==> r[i] == b
  }

  lemma {:induction false} RepeatExists(b: bool, k: nat)
    ensures exists r :: IsRepeat(r, b, k)
  {
    if k == 0 {
      assert IsRepeat([], b, 0);
    } else {
      RepeatExists(b, k - 1);
      var r :| IsRepeat(r, b, k - 1);
      assert IsRepeat([b] + r, b, k);
    }
  }

  function Zeros(k: nat): (r: seq<bool>)
    ensures |r| == k
    ensures forall i :: 0 <= i < k ==> !r[i]
  {
    Repeat(false, k)
  }

  function Fill(w: seq<bool>, b: bool): (r: seq<bool>)
    ensures |r| == |w|
    ensures forall i :: 0 <= i < |w| ==> r[i] == b
  {
    if w == [] then [] else [b] + Fill(w[1..], b)
  }

  /** A byte buffer as one little-endian bit stream. */
  function Stream(buf: seq<Byte>): (s: seq<bool>)
    ensures |s| == 8 * |buf|
  {
    if buf == [] then [] else buf[0] + Stream(buf[1..])
  }

  lemma {:induction false} StreamSlice(buf: seq<Byte>, at: nat, k: nat)
    requires at + k <= |buf|
    ensures Stream(buf[at..at + k]) == Stream(buf)[8 * at..8 * (at + k)]
    decreases at + k
  {
    if at > 0 {
      StreamSlice(buf[1..], at - 1, k);
      assert buf[1..][at - 1..at - 1 + k] == buf[at..at + k];
    } else if k > 0 {
      StreamSlice(buf[1..], 0, k - 1);
      assert buf[0..k][1..] == buf[1..][0..k - 1];
    }
  }

  /** memcpy of 8 bytes into a little-endian 64-bit word. */
  function Load(buf: seq<Byte>, at: nat): (w: Word)
    requires at + 8 <= |buf|
  {
    Stream(buf[at..at + 8])
  }

  function ShiftRight(w: Word, k: nat): (r: Word)
    requires k <= 64
    ensures forall i :: 0 <= i < 64 ==> r[i] == (i + k < 64 && w[i + k])
  {
    w[k..] + Fill(w[..k], false)
  }

  function ShiftLeft(w: Word, k: nat): (r: Word)
    requires k <= 64
    ensures forall i :: 0 <= i < 64 ==> r[i] == (k <= i && w[i - k])
  {
    Fill(w[64 - k..], false) + w[..64 - k]
  }

  /** w & ((1 << k) - 1) */
  function LowBits(w: Word, k: nat): (r: Word)
    requires k <= 64
    ensures forall i :: 0 <= i < 64 ==> r[i] == (i < k && w[i])
  {
    w[..k] + Fill(w[k..], false)
  }

  function Both(a: seq<bool>, b: seq<bool>): (r: seq<bool>)
    requires |a| == |b|
    ensures |r| == |a|
    ensures forall i :: 0 <= i < |a| ==> r[i] == (a[i] && b[i])
  {
    if a == [] then [] else [a[0] && b[0]] + Both(a[1..], b[1..])
  }

  function Either(a: seq<bool>, b: seq<bool>): (r: seq<bool>)
    requires |a| == |b|
    ensures |r| == |a|
    ensures forall i :: 0 <= i < |a| ==> r[i] == (a[i] || b[i])
  {
    if a == [] then [] else [a[0] || b[0]] + Either(a[1..], b[1..])
  }

  function Negate(a: seq<bool>): (r: seq<bool>)
    ensures |r| == |a|
    ensures forall i :: 0 <= i < |a| ==> r[i] == !a[i]
  {
    if a == [] then [] else [!a[0]] + Negate(a[1..])
  }

  function And(a: Word, b: Word): (r: Word)
    ensures forall i :: 0 <= i < 64 ==> r[i] == (a[i] && b[i])
  {
    Both(a, b)
  }

  function Or(a: Word, b: Word): (r: Word)
    ensures forall i :: 0 <= i < 64 ==> r[i] == (a[i] || b[i])
  {
    Either(a, b)
  }

  function Not(a: Word): (r: Word)
    ensures forall i :: 0 <= i < 64 ==> r[i] == !a[i]
  {
    Negate(a)
  }

  /** w + (1 << n) modulo 2^64, the carry rippling upwards. */
  function AddPower(w: Word, n: nat): (r: Word)
    decreases 64 - n
  {
    if n >= 64 then w
    else if !w[n] then w[n := true]
    else AddPower(w[n := false], n + 1)
  }

  /** w - 1 modulo 2^64, the borrow rippling upwards from bit n. */
  function Borrow(w: Word, n: nat): (r: Word)
    decreases 64 - n
  {
    if n >= 64 then w
    else if w[n] then w[n := false]
    else Borrow(w[n := true], n + 1)
  }

  /** Trailing zeros of a bit sequence; its length when no bit is set. */
  function Ctz(w: seq<bool>): (z: nat)
    ensures z <= |w|
    ensures forall i :: 0 <= i < z ==> !w[i]
    ensures z < |w| ==> w[z]
  {
    if w == [] || w[0] then 0 else Ctz(w[1..]) + 1
  }

  function PopCount(w: seq<bool>): (c: nat)
    ensures c <= |w|
  {
    if w == [] then 0 else (if w[0] then 1 else 0) + PopCount(w[1..])
  }

  /** PDEP: bit k of src goes to the k-th set bit of mask. */
  function Pdep(src: seq<bool>, mask: seq<bool>): (r: seq<bool>)
    requires |src| >= |mask|
    ensures |r| == |mask|
    decreases |mask|
  {
    if mask == [] then []
    else if mask[0] then [src[0]] + Pdep(src[1..], mask[1..])
    else [false] + Pdep(src, mask[1..])
  }

  /** The bits of src selected by mask, packed together. */
  function Select(src: seq<bool>, mask: seq<bool>): (r: seq<bool>)
    requires |src| == |mask|
    ensures |r| == PopCount(mask)
  {
    if mask == [] then []
    else if mask[0] then [src[0]] + Select(src[1..], mask[1..])
    else Select(src[1..], mask[1..])
  }

  function Pad(bits: seq<bool>): (w: Word)
    requires |bits| <= 64
    ensures forall i :: 0 <= i < |bits| ==> w[i] == bits[i]
    ensures forall i :: |bits| <= i < 64 ==> !w[i]
  {
    bits + Zeros(64 - |bits|)
  }

  /** PEXT: the selected bits packed at the low end of a word. */
  function Pext(src: Word, mask: Word): (r: Word)
  {
    Pad(Select(src, mask))
  }

  /** At least 57 valid stream bits starting at bit pos: the load at byte pos / 8,
    * shifted right by pos % 8 (PeekIsLoad), found by stepping over whole bytes. */
  function Peek(buf: seq<Byte>, pos: nat): Word
    requires pos + 57 <= 8 * |buf|
  {
    if pos < 8 then ShiftRight(Load(buf, 0), pos) else Peek(buf[1..], pos - 8)
  }

  lemma {:induction false} PeekIsLoad(buf: seq<Byte>, pos: nat)
    requires pos + 57 <= 8 * |buf|
    ensures pos / 8 + 8 <= |buf|
    ensures Peek(buf, pos) == ShiftRight(Load(buf, pos / 8), pos % 8)
  {
    if pos >= 8 {
      PeekIsLoad(buf[1..], pos - 8);
      assert buf[1..][(pos - 8) / 8..(pos - 8) / 8 + 8] == buf[pos / 8..pos / 8 + 8];
    }
  }

  lemma {:induction false} PeekBit(buf: seq<Byte>, pos: nat, i: nat)
    requires pos + 57 <= 8 * |buf| && i < 57
    ensures Peek(buf, pos)[i] == Stream(buf)[pos + i]
  {
    if pos < 8 {
      StreamSlice(buf, 0, 8);
    } else {
      PeekBit(buf[1..], pos - 8, i);
    }
  }

  // ---- the value of a word, which fixes what the ripple operations mean ----

  function Pow2(n: nat): (p: nat)
    ensures p >= 1
  {
    if n == 0 then 1 else 2 * Pow2(n - 1)
  }

  function Value(w: seq<bool>): nat
  {
    if w == [] then 0 else (if w[0] then 1 else 0) + 2 * Value(w[1..])
  }

  /** Setting one bit changes the value by its power of two. */
  lemma {:induction false} ValueSet(w: seq<bool>, n: nat)
    requires n < |w| && !w[n]
    ensures Value(w[n := true]) == Value(w) + Pow2(n)
  {
    if n == 0 {
      assert w[0 := true][1..] == w[1..];
    } else {
      ValueSet(w[1..], n - 1);
      assert w[n := true][1..] == w[1..][n - 1 := true];
    }
  }

  /** AddPower is addition of 2^n modulo 2^64. */
  lemma {:induction false} AddPowerValue(w: Word, n: nat)
    requires n <= 64
    ensures Value(AddPower(w, n)) == Value(w) + Pow2(n) || Value(AddPower(w, n)) + Pow2(64) == Value(w) + Pow2(n)
    decreases 64 - n
  {
    if n == 64 {
    } else if !w[n] {
      ValueSet(w, n);
    } else {
      var v := w[n := false];
      assert v[n := true] == w;
      ValueSet(v, n);
      AddPowerValue(v, n + 1);
    }
  }

  /** Borrow flips the zeros up to the lowest set bit and clears that bit. */
  lemma {:induction false} BorrowBits(w: Word, n: nat)
    requires n <= 64
    ensures forall i :: 0 <= i < 64 ==>
              Borrow(w, n)[i] == if i < n || i > n + Ctz(w[n..]) then w[i] else i < n + Ctz(w[n..])
    decreases 64 - n
  {
    if n < 64 && !w[n] {
      var v := w[n := true];
      BorrowBits(v, n + 1);
      assert v[n + 1..] == w[n..][1..];
    }
  }

  /** x &= x - 1 clears exactly the lowest set bit. */
  lemma {:induction false} ClearLowest(w: Word)
    requires Ctz(w) < 64
    ensures And(w, Borrow(w, 0)) == w[Ctz(w) := false]
  {
    BorrowBits(w, 0);
    assert w[0..] == w;
  }
}
