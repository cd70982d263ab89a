// The checksum of NetWork/CRC32.cpp: a table step unrolled eight times, proved
// equal to the bit-serial register of RFC 1952, section 8, and the algebra that
// makes it useful: chaining, linearity and detection of every error burst of
// at most 32 bits. `unsigned long` is 64 bits wide; nothing is assumed of the
// incoming value except where a lemma says so.
module Folds {
  function Fold<S, E>(f: (S, E) -> S, s: S, es: seq<E>): S
    decreases |es|
  {
    if es == [] then s else Fold(f, f(s, es[0]), es[1..])
  }

  lemma {:induction false} FoldConcat<S, E>(f: (S, E) -> S, s: S, x: seq<E>, y: seq<E>)
    ensures Fold(f, s, x + y) == Fold(f, Fold(f, s, x), y)
    decreases |x|
  {
    if x == [] {
      assert x + y == y;
    } else {
      assert (x + y)[1..] == x[1..] + y;
      FoldConcat(f, f(s, x[0]), x[1..], y);
    }
  }

  lemma {:induction false} FoldFrom<S, E>(f: (S, E) -> S, s: S, es: seq<E>, k: nat)
    requires k < |es|
    ensures Fold(f, s, es[k..]) == Fold(f, f(s, es[k]), es[k + 1..])
  {
    assert es[k..][1..] == es[k + 1..];
  }

  lemma {:induction false} Fold8<S, E>(f: (S, E) -> S, s: S, es: seq<E>)
    requires |es| == 8
    ensures Fold(f, s, es) == f(f(f(f(f(f(f(f(s, es[0]), es[1]), es[2]), es[3]), es[4]), es[5]), es[6]), es[7])
  {
    assert es[0..] == es;
    FoldFrom(f, s, es, 0);
    var s1 := f(s, es[0]);
    FoldFrom(f, s1, es, 1);
    var s2 := f(s1, es[1]);
    FoldFrom(f, s2, es, 2);
    var s3 := f(s2, es[2]);
    FoldFrom(f, s3, es, 3);
    var s4 := f(s3, es[3]);
    FoldFrom(f, s4, es, 4);
    var s5 := f(s4, es[4]);
    FoldFrom(f, s5, es, 5);
    var s6 := f(s5, es[5]);
    FoldFrom(f, s6, es, 6);
    var s7 := f(s6, es[6]);
    FoldFrom(f, s7, es, 7);
  }
}

module Crc32 {
  import opened Crc32Table
  import opened Folds

  const MASK: bv64 := 0xFFFFFFFF

  // ---- The bit-serial reference -------------------------------------------

  // The bits of a byte, least significant first.
  function ByteBits(b: bv8): (bits: seq<bool>) {
    [b & 1 != 0, b & 2 != 0, b & 4 != 0, b & 8 != 0,
     b & 16 != 0, b & 32 != 0, b & 64 != 0, b & 128 != 0]
  }

  function Bits(s: seq<bv8>): (bits: seq<bool>)
    ensures |bits| == 8 * |s|
  {
    if s == [] then [] else ByteBits(s[0]) + Bits(s[1..])
  }

  function Bit(e: bool): bv64 {
    if e then 1 else 0
  }

  // A name for exclusive or that a proof can hide.
  function Xor(x: bv64, y: bv64): bv64 {
    x ^ y
  }

  // One clock of the register with an input bit.
  function Clock(c: bv64, e: bool): bv64 {
    Shift(c ^ Bit(e))
  }

  // The register after the bits have been clocked in one at a time.
  function Serial(c: bv64, bits: seq<bool>): bv64 {
    Fold(Clock, c, bits)
  }

  function Crc(c: bv64, s: seq<bv8>): bv64 {
    Xor(Serial(Xor(c, MASK), Bits(s)), MASK)
  }

  lemma {:induction false} Associative(x: seq<bool>, y: seq<bool>, z: seq<bool>)
    ensures x + (y + z) == (x + y) + z
  {
  }

  lemma {:induction false} BitsConcat(s: seq<bv8>, t: seq<bv8>)
    ensures Bits(s + t) == Bits(s) + Bits(t)
  {
    if s == [] {
      assert s + t == t;
    } else {
      hide ByteBits;
      BitsConcat(s[1..], t);
      assert (s + t)[1..] == s[1..] + t;
      Associative(ByteBits(s[0]), Bits(s[1..]), Bits(t));
    }
  }

  // ---- The table step refines eight register clocks -------------------------

  // DO1: one table lookup per byte.
  function Do1(c: bv64, b: bv8): bv64 {
    BlockLengths();
    Xor(CRC_TABLE[(((c & 0xFF) as bv8) ^ b) as int], c >> 8)
  }

  lemma {:induction false} ShiftXorOddOdd(x: bv64, y: bv64)
    requires x & 1 == 1 && y & 1 == 1
    ensures Shift(x ^ y) == Shift(x) ^ Shift(y)
  {
  }

  lemma {:induction false} ShiftXorOddEven(x: bv64, y: bv64)
    requires x & 1 == 1 && y & 1 != 1
    ensures Shift(x ^ y) == Shift(x) ^ Shift(y)
  {
  }

  lemma {:induction false} ShiftXorEvenOdd(x: bv64, y: bv64)
    requires x & 1 != 1 && y & 1 == 1
    ensures Shift(x ^ y) == Shift(x) ^ Shift(y)
  {
  }

  lemma {:induction false} ShiftXorEvenEven(x: bv64, y: bv64)
    requires x & 1 != 1 && y & 1 != 1
    ensures Shift(x ^ y) == Shift(x) ^ Shift(y)
  {
  }

  // The register is linear over exclusive or.
  lemma {:induction false} ShiftXor(x: bv64, y: bv64)
    ensures Shift(x ^ y) == Shift(x) ^ Shift(y)
  {
    if x & 1 == 1 {
      if y & 1 == 1 {
        ShiftXorOddOdd(x, y);
      } else {
        ShiftXorOddEven(x, y);
      }
    } else {
      if y & 1 == 1 {
        ShiftXorEvenOdd(x, y);
      } else {
        ShiftXorEvenEven(x, y);
      }
    }
  }

  lemma {:induction false} PendingOddOdd(c: bv64, r: bv64)
    requires c & 1 == 1 && r & 1 == 1
    ensures Shift(c ^ r) == Clock(c, r & 1 == 1) ^ (r >> 1)
  {
  }

  lemma {:induction false} PendingOddEven(c: bv64, r: bv64)
    requires c & 1 == 1 && r & 1 != 1
    ensures Shift(c ^ r) == Clock(c, r & 1 == 1) ^ (r >> 1)
  {
  }

  lemma {:induction false} PendingEvenOdd(c: bv64, r: bv64)
    requires c & 1 != 1 && r & 1 == 1
    ensures Shift(c ^ r) == Clock(c, r & 1 == 1) ^ (r >> 1)
  {
  }

  lemma {:induction false} PendingEvenEven(c: bv64, r: bv64)
    requires c & 1 != 1 && r & 1 != 1
    ensures Shift(c ^ r) == Clock(c, r & 1 == 1) ^ (r >> 1)
  {
  }

  // Bits waiting to enter can be held in a word and added all at once.
  lemma {:induction false} Pending(c: bv64, r: bv64)
    ensures Shift(c ^ r) == Clock(c, r & 1 == 1) ^ (r >> 1)
  {
    if c & 1 == 1 {
      if r & 1 == 1 {
        PendingOddOdd(c, r);
      } else {
        PendingOddEven(c, r);
      }
    } else {
      if r & 1 == 1 {
        PendingEvenOdd(c, r);
      } else {
        PendingEvenEven(c, r);
      }
    }
  }

  lemma {:induction false} PendingXor(c: bv64, r: bv64)
    ensures Shift(Xor(c, r)) == Xor(Clock(c, r & 1 == 1), r >> 1)
  {
    hide Shift, Clock;
    Pending(c, r);
  }

  lemma {:induction false} ShiftXorXor(x: bv64, y: bv64)
    ensures Shift(Xor(x, y)) == Xor(Shift(x), Shift(y))
  {
    hide Shift;
    ShiftXor(x, y);
  }

  lemma {:induction false} WordBits(b: bv8)
    ensures var r := b as bv64;
      && (b & 1 != 0) == (r & 1 == 1)
      && (b & 2 != 0) == ((r >> 1) & 1 == 1)
      && (b & 4 != 0) == ((r >> 1 >> 1) & 1 == 1)
      && (b & 8 != 0) == ((r >> 1 >> 1 >> 1) & 1 == 1)
      && (b & 16 != 0) == ((r >> 1 >> 1 >> 1 >> 1) & 1 == 1)
      && (b & 32 != 0) == ((r >> 1 >> 1 >> 1 >> 1 >> 1) & 1 == 1)
      && (b & 64 != 0) == ((r >> 1 >> 1 >> 1 >> 1 >> 1 >> 1) & 1 == 1)
      && (b & 128 != 0) == ((r >> 1 >> 1 >> 1 >> 1 >> 1 >> 1 >> 1) & 1 == 1)
      && (r >> 1 >> 1 >> 1 >> 1 >> 1 >> 1 >> 1 >> 1) == 0
  {
  }

  lemma {:induction false} ClockEight(c: bv64, r0: bv64, b0: bool, b1: bool, b2: bool, b3: bool, b4: bool, b5: bool, b6: bool, b7: bool)
    requires b0 == (r0 & 1 == 1)
    requires b1 == ((r0 >> 1) & 1 == 1)
    requires b2 == ((r0 >> 1 >> 1) & 1 == 1)
    requires b3 == ((r0 >> 1 >> 1 >> 1) & 1 == 1)
    requires b4 == ((r0 >> 1 >> 1 >> 1 >> 1) & 1 == 1)
    requires b5 == ((r0 >> 1 >> 1 >> 1 >> 1 >> 1) & 1 == 1)
    requires b6 == ((r0 >> 1 >> 1 >> 1 >> 1 >> 1 >> 1) & 1 == 1)
    requires b7 == ((r0 >> 1 >> 1 >> 1 >> 1 >> 1 >> 1 >> 1) & 1 == 1)
    ensures Shift8(Xor(c, r0))
         == Xor(Clock(Clock(Clock(Clock(Clock(Clock(Clock(Clock(c, b0), b1), b2), b3), b4), b5), b6), b7),
                r0 >> 1 >> 1 >> 1 >> 1 >> 1 >> 1 >> 1 >> 1)
  {
    hide Shift, Clock, Xor;
    var r1 := r0 >> 1;
    var x1 := Clock(c, b0);
    PendingXor(c, r0);
    var r2 := r1 >> 1;
    var x2 := Clock(x1, b1);
    PendingXor(x1, r1);
    var r3 := r2 >> 1;
    var x3 := Clock(x2, b2);
    PendingXor(x2, r2);
    var r4 := r3 >> 1;
    var x4 := Clock(x3, b3);
    PendingXor(x3, r3);
    var r5 := r4 >> 1;
    var x5 := Clock(x4, b4);
    PendingXor(x4, r4);
    var r6 := r5 >> 1;
    var x6 := Clock(x5, b5);
    PendingXor(x5, r5);
    var r7 := r6 >> 1;
    var x7 := Clock(x6, b6);
    PendingXor(x6, r6);
    PendingXor(x7, r7);
  }

  lemma {:induction false} XorUnit(x: bv64)
    ensures Xor(x, 0) == x == Xor(0, x)
    ensures Xor(x, x) == 0
  {
  }

  lemma {:induction false} SerialByte(c: bv64, b: bv8)
    ensures Serial(c, ByteBits(b)) == Shift8(Xor(c, b as bv64))
  {
    hide Shift, Clock, Xor, Shift8;
    var s := ByteBits(b);
    Fold8(Clock, c, s);
    WordBits(b);
    ClockEight(c, b as bv64, s[0], s[1], s[2], s[3], s[4], s[5], s[6], s[7]);
    XorUnit(Serial(c, s));
  }

  lemma {:induction false} Shift8Xor(x: bv64, y: bv64)
    ensures Shift8(Xor(x, y)) == Xor(Shift8(x), Shift8(y))
  {
    hide Shift, Xor;
    ShiftXorXor(x, y);
    var x1, y1 := Shift(x), Shift(y);
    ShiftXorXor(x1, y1);
    var x2, y2 := Shift(x1), Shift(y1);
    ShiftXorXor(x2, y2);
    var x3, y3 := Shift(x2), Shift(y2);
    ShiftXorXor(x3, y3);
    var x4, y4 := Shift(x3), Shift(y3);
    ShiftXorXor(x4, y4);
    var x5, y5 := Shift(x4), Shift(y4);
    ShiftXorXor(x5, y5);
    var x6, y6 := Shift(x5), Shift(y5);
    ShiftXorXor(x6, y6);
    ShiftXorXor(Shift(x6), Shift(y6));
  }

  lemma {:induction false} Shift8High(h: bv64)
    ensures Shift8((h >> 8) << 8) == h >> 8
  {
  }

  lemma {:induction false} SplitLowByte(c: bv64, b: bv8)
    ensures Xor(c, b as bv64) == Xor((((c & 0xFF) as bv8) ^ b) as bv64, (c >> 8) << 8)
  {
  }

  // The table step is eight clocks of the register, for every register value.
  lemma {:induction false} Do1IsSerial(c: bv64, b: bv8)
    ensures Do1(c, b) == Serial(c, ByteBits(b))
  {
    hide Shift8, Serial, CRC_TABLE, Xor;
    var i := ((c & 0xFF) as bv8) ^ b;
    TableEntry(i);
    SerialByte(c, b);
    SplitLowByte(c, b);
    Shift8Xor(i as bv64, (c >> 8) << 8);
    Shift8High(c);
  }

  // ---- crc32 -----------------------------------------------------------------

  lemma {:induction false} SerialStep(c: bv64, s: seq<bv8>, k: nat)
    requires k < |s|
    ensures Serial(c, Bits(s[..k + 1])) == Do1(Serial(c, Bits(s[..k])), s[k])
  {
    hide Shift, Clock;
    var one := [s[k]];
    assert s[..k + 1] == s[..k] + one;
    BitsConcat(s[..k], one);
    assert Bits(one) == ByteBits(s[k]) by { assert Bits(one[1..]) == []; }
    FoldConcat(Clock, c, Bits(s[..k]), ByteBits(s[k]));
    Do1IsSerial(Serial(c, Bits(s[..k])), s[k]);
  }

  // The loop of crc32: DO8 while eight bytes are left, then DO1 for the rest.
  method ComputeCrc32(crc: bv64, buf: array?<bv8>, len: nat) returns (r: bv64)
    requires buf != null ==> len <= buf.Length
    ensures buf == null ==> r == 0
    ensures buf != null ==> r == Crc(crc, buf[..len])
  {
    hide Shift, Clock, Serial, Bits, Do1, Xor;
    if buf == null {
      return 0;
    }
    var c := Xor(crc, MASK);
    ghost var start := c;
    EmptyBits(start);
    assert buf[..0] == [];
    var pos, left := 0, len;
    while left >= 8
      invariant 0 <= left <= len && pos == len - left
      invariant c == Serial(start, Bits(buf[..pos]))
    {
      c := Do1At(start, buf, pos, c);
      c := Do1At(start, buf, pos + 1, c);
      c := Do1At(start, buf, pos + 2, c);
      c := Do1At(start, buf, pos + 3, c);
      c := Do1At(start, buf, pos + 4, c);
      c := Do1At(start, buf, pos + 5, c);
      c := Do1At(start, buf, pos + 6, c);
      c := Do1At(start, buf, pos + 7, c);
      pos, left := pos + 8, left - 8;
    }
    while left != 0
      invariant 0 <= left <= len && pos == len - left
      invariant c == Serial(start, Bits(buf[..pos]))
    {
      c := Do1At(start, buf, pos, c);
      pos, left := pos + 1, left - 1;
    }
    r := Xor(c, MASK);
  }

  lemma {:induction false} EmptyBits(c: bv64)
    ensures Serial(c, Bits([])) == c
  {
    hide Shift, Clock;
  }

  // DO1 at a position of the buffer.
  method Do1At(ghost start: bv64, buf: array<bv8>, pos: nat, c: bv64) returns (r: bv64)
    requires pos < buf.Length && c == Serial(start, Bits(buf[..pos]))
    ensures r == Serial(start, Bits(buf[..pos + 1]))
  {
    hide Shift, Clock, Serial, Bits, Do1;
    assert buf[..][..pos] == buf[..pos] && buf[..][..pos + 1] == buf[..pos + 1];
    SerialStep(start, buf[..], pos);
    r := Do1(c, buf[pos]);
  }

  // ---- Chaining and range ------------------------------------------------------

  // A checksum can be resumed: crc32(crc32(c, a), b) is the checksum of a + b.
  lemma {:induction false} CrcChain(c: bv64, a: seq<bv8>, b: seq<bv8>)
    ensures Crc(Crc(c, a), b) == Crc(c, a + b)
  {
    hide Shift, Clock, Bits, Xor;
    BitsConcat(a, b);
    FoldConcat(Clock, Xor(c, MASK), Bits(a), Bits(b));
    MaskTwice(Serial(Xor(c, MASK), Bits(a)));
  }

  lemma {:induction false} MaskTwice(x: bv64)
    ensures Xor(Xor(x, MASK), MASK) == x
  {
  }

  lemma {:induction false} ClockInRange(c: bv64, e: bool)
    requires c <= MASK
    ensures Clock(c, e) <= MASK
  {
  }

  lemma {:induction false} SerialInRange(c: bv64, bits: seq<bool>)
    requires c <= MASK
    ensures Serial(c, bits) <= MASK
    decreases |bits|
  {
    hide Clock;
    if bits != [] {
      ClockInRange(c, bits[0]);
      SerialInRange(Clock(c, bits[0]), bits[1..]);
    }
  }

  // A 32-bit starting value gives a 32-bit checksum.
  lemma {:induction false} CrcInRange(c: bv64, s: seq<bv8>)
    requires c <= MASK
    ensures Crc(c, s) <= MASK
  {
    hide Shift, Clock, Bits, Serial, Xor;
    MaskInRange(c);
    SerialInRange(Xor(c, MASK), Bits(s));
    MaskInRange(Serial(Xor(c, MASK), Bits(s)));
  }

  lemma {:induction false} MaskInRange(c: bv64)
    requires c <= MASK
    ensures Xor(c, MASK) <= MASK
  {
  }

  // ---- Error detection ----------------------------------------------------------

  // The positions where two bit strings differ.
  function Diff(x: seq<bool>, y: seq<bool>): (d: seq<bool>)
    requires |x| == |y|
    ensures |d| == |x|
    ensures forall i :: 0 <= i < |x| ==> d[i] == (x[i] != y[i])
  {
    seq(|x|, i requires 0 <= i < |x| => x[i] != y[i])
  }

  lemma {:induction false} InjectDiff(c: bv64, d: bv64, e: bool, f: bool)
    ensures Xor(Xor(c, Bit(e)), Xor(d, Bit(f))) == Xor(Xor(c, d), Bit(e != f))
  {
    XorSwap(c, Bit(e), d, Bit(f));
    BitXor(e, f);
    hide Bit, Xor;
  }

  lemma {:induction false} XorSwap(a: bv64, b: bv64, c: bv64, d: bv64)
    ensures Xor(Xor(a, b), Xor(c, d)) == Xor(Xor(a, c), Xor(b, d))
  {
    hide Xor;
    XorAssociative(a, b, Xor(c, d));
    XorAssociative(b, c, d);
    XorCommutes(b, c);
    XorAssociative(c, b, d);
    XorAssociative(a, c, Xor(b, d));
  }

  lemma {:induction false} XorAssociative(a: bv64, b: bv64, c: bv64)
    ensures Xor(Xor(a, b), c) == Xor(a, Xor(b, c))
  {
  }

  lemma {:induction false} XorCommutes(a: bv64, b: bv64)
    ensures Xor(a, b) == Xor(b, a)
  {
  }

  lemma {:induction false} BitXor(e: bool, f: bool)
    ensures Xor(Bit(e), Bit(f)) == Bit(e != f)
  {
  }

  lemma {:induction false} ClockForm(c: bv64, e: bool)
    ensures Clock(c, e) == Shift(Xor(c, Bit(e)))
  {
    hide Shift, Bit;
  }

  lemma {:induction false} ClockXor(c: bv64, d: bv64, e: bool, f: bool)
    ensures Xor(Clock(c, e), Clock(d, f)) == Clock(Xor(c, d), e != f)
  {
    hide Shift, Bit, Xor, Clock;
    ClockForm(c, e);
    ClockForm(d, f);
    ClockForm(Xor(c, d), e != f);
    InjectDiff(c, d, e, f);
    ShiftXorXor(Xor(c, Bit(e)), Xor(d, Bit(f)));
  }

  lemma {:induction false} SerialXor(c: bv64, d: bv64, x: seq<bool>, y: seq<bool>)
    requires |x| == |y|
    ensures Xor(Serial(c, x), Serial(d, y)) == Serial(Xor(c, d), Diff(x, y))
    decreases |x|
  {
    hide Clock, Xor, Diff;
    if x != [] {
      ClockXor(c, d, x[0], y[0]);
      SerialXor(Clock(c, x[0]), Clock(d, y[0]), x[1..], y[1..]);
      DiffTail(x, y);
    }
  }

  lemma {:induction false} DiffTail(x: seq<bool>, y: seq<bool>)
    requires |x| == |y| > 0
    ensures Diff(x, y)[1..] == Diff(x[1..], y[1..])
  {
  }

  // A register this large needs more than k further clocks to run empty.
  function Threshold(k: nat): bv64 {
    if k == 0 then 0x8000_0000 else Half(Threshold(k - 1))
  }

  function Half(t: bv64): bv64 {
    t >> 1
  }

  lemma {:induction false} ThresholdFalls(k: nat, n: nat)
    requires k <= n
    ensures Threshold(n) <= Threshold(k) <= 0x8000_0000
    decreases n
  {
    if n == 0 {
    } else if k < n {
      ThresholdFalls(k, n - 1);
    } else {
      ThresholdFalls(0, n - 1);
    }
  }

  lemma {:induction false} ThresholdStep(k: nat)
    ensures Threshold(k + 1) == Half(Threshold(k))
  {
  }

  lemma {:induction false} LastThreshold()
    ensures Threshold(30) == 2
    ensures Threshold(31) == 1
  {
    assert Threshold(2) == 0x20000000;
    assert Threshold(4) == 0x8000000;
    assert Threshold(6) == 0x2000000;
    assert Threshold(8) == 0x800000;
    assert Threshold(10) == 0x200000;
    assert Threshold(12) == 0x80000;
    assert Threshold(14) == 0x20000;
    assert Threshold(16) == 0x8000;
    assert Threshold(18) == 0x2000;
    assert Threshold(20) == 0x800;
    assert Threshold(22) == 0x200;
    assert Threshold(24) == 0x80;
    assert Threshold(26) == 0x20;
    assert Threshold(28) == 0x8;
    assert Threshold(30) == 0x2;
  }

  lemma {:induction false} ThresholdRange(k: nat)
    requires k < 31
    ensures 2 <= Threshold(k) <= 0x8000_0000
  {
    hide Half;
    LastThreshold();
    ThresholdFalls(k, 30);
  }

  ghost predicate AtLeast(s: bv64, t: bv64) {
    t <= s <= MASK
  }

  lemma {:induction false} ShiftOdd(x: bv64)
    requires x & 1 == 1 && x <= MASK
    ensures 0x8000_0000 <= Shift(x) <= MASK
  {
  }

  lemma {:induction false} ShiftEven(x: bv64)
    requires x & 1 != 1 && x <= MASK
    ensures Shift(x) == Half(x) && Half(x) <= MASK
  {
  }

  lemma {:induction false} HalfMonotone(s: bv64, e: bool, t: bv64)
    requires t <= s <= MASK && 2 <= t <= 0x8000_0000
    ensures Half(t) <= Half(Xor(s, Bit(e))) && Half(t) <= 0x8000_0000
    ensures Xor(s, Bit(e)) <= MASK
  {
  }

  lemma {:induction false} ClockHalves(s: bv64, e: bool, t: bv64)
    requires AtLeast(s, t) && 2 <= t <= 0x8000_0000
    ensures AtLeast(Clock(s, e), Half(t))
  {
    hide Shift, Half, Xor, Clock;
    ClockForm(s, e);
    HalfMonotone(s, e, t);
    var x := Xor(s, Bit(e));
    if x & 1 == 1 {
      ShiftOdd(x);
    } else {
      ShiftEven(x);
    }
  }

  lemma {:induction false} AtLeastOne(s: bv64, k: nat)
    requires AtLeast(s, Threshold(k)) && k <= 31
    ensures 1 <= s <= MASK
  {
    hide Threshold;
    LastThreshold();
    ThresholdFalls(k, 31);
  }

  lemma {:induction false} SerialAtLeast(s: bv64, bits: seq<bool>, k: nat)
    requires AtLeast(s, Threshold(k)) && k + |bits| <= 31
    ensures AtLeast(Serial(s, bits), Threshold(k + |bits|))
    decreases |bits|
  {
    hide Clock, AtLeast, Threshold, Half;
    if bits != [] {
      ThresholdRange(k);
      ThresholdStep(k);
      ClockHalves(s, bits[0], Threshold(k));
      SerialAtLeast(Clock(s, bits[0]), bits[1..], k + 1);
    }
  }

  lemma {:induction false} ClockZero()
    ensures Clock(0, false) == 0
    ensures Clock(0, true) == POLY
    ensures Threshold(0) <= POLY <= MASK
  {
  }

  // Shifting alone never empties a 32-bit register.
  lemma {:induction false} ClockNonzero(s: bv64)
    requires 1 <= s <= MASK
    ensures 1 <= Clock(s, false) <= MASK
  {
  }

  lemma {:induction false} ZerosKeepNonzero(s: bv64, bits: seq<bool>)
    requires 1 <= s <= MASK
    requires forall i :: 0 <= i < |bits| ==> !bits[i]
    ensures 1 <= Serial(s, bits) <= MASK
    decreases |bits|
  {
    hide Clock;
    if bits != [] {
      ClockNonzero(s);
      ZerosKeepNonzero(Clock(s, false), bits[1..]);
    }
  }

  // All set bits lie in one window of 32 consecutive positions.
  ghost predicate IsBurst(d: seq<bool>) {
    forall i, j :: 0 <= i <= j < |d| && d[i] && d[j] ==> j - i < 32
  }

  lemma {:induction false} BurstNonzero(d: seq<bool>)
    requires IsBurst(d) && true in d
    ensures Serial(0, d) != 0
    decreases |d|
  {
    hide Clock;
    ClockZero();
    var rest := d[1..];
    if d[0] {
      var n := if |rest| <= 31 then |rest| else 31;
      assert rest == rest[..n] + rest[n..];
      FoldConcat(Clock, POLY, rest[..n], rest[n..]);
      SerialAtLeast(POLY, rest[..n], 0);
      AtLeastOne(Serial(POLY, rest[..n]), n);
      ZerosKeepNonzero(Serial(POLY, rest[..n]), rest[n..]);
    } else {
      assert forall i :: 0 <= i < |rest| ==> rest[i] == d[i + 1];
      assert true in rest by {
        var i :| 0 <= i < |d| && d[i];
        assert rest[i - 1];
      }
      BurstNonzero(rest);
    }
  }

  lemma {:induction false} ByteBitsInjective(a: bv8, b: bv8)
    requires ByteBits(a) == ByteBits(b)
    ensures a == b
  {
    assert forall i :: 0 <= i < 8 ==> ByteBits(a)[i] == ByteBits(b)[i];
    assert ByteBits(a)[0] == ByteBits(b)[0];
    assert ByteBits(a)[1] == ByteBits(b)[1];
    assert ByteBits(a)[2] == ByteBits(b)[2];
    assert ByteBits(a)[3] == ByteBits(b)[3];
    assert ByteBits(a)[4] == ByteBits(b)[4];
    assert ByteBits(a)[5] == ByteBits(b)[5];
    assert ByteBits(a)[6] == ByteBits(b)[6];
    assert ByteBits(a)[7] == ByteBits(b)[7];
  }

  lemma {:induction false} BitsInjective(a: seq<bv8>, b: seq<bv8>)
    requires |a| == |b| && Bits(a) == Bits(b)
    ensures a == b
  {
    hide ByteBits;
    if a != [] {
      assert ByteBits(a[0]) == Bits(a)[..8] == Bits(b)[..8] == ByteBits(b[0]);
      assert Bits(a[1..]) == Bits(a)[8..] == Bits(b)[8..] == Bits(b[1..]);
      ByteBitsInjective(a[0], b[0]);
      BitsInjective(a[1..], b[1..]);
    }
  }

  // Two different buffers of one length whose differing bits fit in a window
  // of 32 never have the same checksum, whatever the starting value.
  lemma {:induction false} BurstDetected(c: bv64, a: seq<bv8>, b: seq<bv8>)
    requires |a| == |b| && a != b
    requires forall i, j :: 0 <= i <= j < 8 * |a| && Bits(a)[i] != Bits(b)[i] && Bits(a)[j] != Bits(b)[j] ==> j - i < 32
    ensures Crc(c, a) != Crc(c, b)
  {
    hide Shift, Clock, ByteBits, Bits, Serial, Xor;
    var x, y := Bits(a), Bits(b);
    var d := Diff(x, y);
    assert true in d by {
      if x == y {
        BitsInjective(a, b);
      }
      var i :| 0 <= i < |x| && x[i] != y[i];
      assert d[i];
    }
    var start := Xor(c, MASK);
    SerialXor(start, start, x, y);
    XorUnit(start);
    BurstNonzero(d);
    MaskTwice(Serial(start, x));
    MaskTwice(Serial(start, y));
    XorUnit(Serial(start, x));
  }

  lemma {:induction false} SerialShift8(c: bv64, s: seq<bv8>, k: nat)
    requires k < |s|
    ensures Serial(c, Bits(s[..k + 1])) == Shift8(Xor(Serial(c, Bits(s[..k])), s[k] as bv64))
  {
    hide Shift, Clock, Serial, Bits, Xor, Shift8;
    SerialStep(c, s, k);
    Do1IsSerial(Serial(c, Bits(s[..k])), s[k]);
    SerialByte(Serial(c, Bits(s[..k])), s[k]);
  }

  lemma {:induction false} SerialZeros(bits: seq<bool>)
    requires forall i :: 0 <= i < |bits| ==> !bits[i]
    ensures Serial(0, bits) == 0
    decreases |bits|
  {
    hide Clock;
    if bits != [] {
      ClockZero();
      SerialZeros(bits[1..]);
    }
  }

  // The generator of 33 bits in the order of transmission: a one and then the
  // feedback constant, least significant bit first.
  function Generator(): (g: seq<bool>)
    ensures |g| == 33
  {
    [true] + Bits([0x20, 0x83, 0xB8, 0xED])
  }

  lemma {:induction false} FeedbackWord()
    ensures Clock(0x0, true) == 0xEDB88320
    ensures Shift8(Xor(0xEDB88320, 0x20)) == 0xEDB883
    ensures Shift8(Xor(0xEDB883, 0x83)) == 0xEDB8
    ensures Shift8(Xor(0xEDB8, 0xB8)) == 0xED
    ensures Shift8(Xor(0xED, 0xED)) == 0x0
  {
  }

  // The generator itself leaves the register as empty as it was.
  lemma {:induction false} GeneratorClears()
    ensures Serial(0, Generator()) == 0
  {
    hide Shift, Clock, Serial, Bits, Xor, Shift8;
    FeedbackWord();
    var p: seq<bv8> := [0x20, 0x83, 0xB8, 0xED];
    EmptyBits(0xEDB88320);
    assert p[..0] == [] && p[..4] == p;
    SerialShift8(0xEDB88320, p, 0);
    SerialShift8(0xEDB88320, p, 1);
    SerialShift8(0xEDB88320, p, 2);
    SerialShift8(0xEDB88320, p, 3);
    SerialCons(0, true, Bits(p));
  }

  lemma {:induction false} SerialCons(c: bv64, e: bool, bits: seq<bool>)
    ensures Serial(c, [e] + bits) == Serial(Clock(c, e), bits)
  {
    assert ([e] + bits)[1..] == bits;
  }

  lemma {:induction false} XorEqual(x: bv64, y: bv64)
    requires Xor(x, y) == 0
    ensures x == y
  {
  }

  // The bit pattern of length n that is the generator at position k and zero
  // elsewhere.
  predicate IsGeneratorAt(d: seq<bool>, k: nat) {
    && k + 33 <= |d|
    && d[k..k + 33] == Generator()
    && (forall i :: 0 <= i < |d| && !(k <= i < k + 33) ==> !d[i])
  }

  lemma {:induction false} GeneratorUnseen(d: seq<bool>, k: nat)
    requires IsGeneratorAt(d, k)
    ensures Serial(0, d) == 0
  {
    hide Clock, Generator;
    var before, after := d[..k], d[k + 33..];
    assert d == before + (d[k..k + 33] + after);
    FoldConcat(Clock, 0, before, d[k..k + 33] + after);
    FoldConcat(Clock, 0, d[k..k + 33], after);
    SerialZeros(before);
    GeneratorClears();
    SerialZeros(after);
  }

  // The bound is sharp: buffers of one length that differ by the generator,
  // wherever it lies, have the same checksum for every starting value.
  lemma {:induction false} BurstOf33Missed(c: bv64, a: seq<bv8>, b: seq<bv8>, k: nat)
    requires |a| == |b| && IsGeneratorAt(Diff(Bits(a), Bits(b)), k)
    ensures Crc(c, a) == Crc(c, b)
  {
    hide Shift, Clock, ByteBits, Bits, Serial, Xor, Diff, IsGeneratorAt;
    var start := Xor(c, MASK);
    SerialXor(start, start, Bits(a), Bits(b));
    XorUnit(start);
    GeneratorUnseen(Diff(Bits(a), Bits(b)), k);
    XorEqual(Serial(start, Bits(a)), Serial(start, Bits(b)));
  }

  function Flag(e: bool, mask: bv8): bv8 {
    if e then mask else 0
  }

  function Join(e0: bool, e1: bool, e2: bool, e3: bool, e4: bool, e5: bool, e6: bool, e7: bool): bv8 {
    (Flag(e0, 1) | Flag(e1, 2) | Flag(e2, 4) | Flag(e3, 8)) | (Flag(e4, 16) | Flag(e5, 32) | Flag(e6, 64) | Flag(e7, 128))
  }

  lemma {:induction false} Joined(e0: bool, e1: bool, e2: bool, e3: bool, e4: bool, e5: bool, e6: bool, e7: bool)
    ensures ByteBits(Join(e0, e1, e2, e3, e4, e5, e6, e7)) == [e0, e1, e2, e3, e4, e5, e6, e7]
  {
    var b := Join(e0, e1, e2, e3, e4, e5, e6, e7);
    assert (b & 1 != 0) == e0 && (b & 2 != 0) == e1 && (b & 4 != 0) == e2 && (b & 8 != 0) == e3;
    assert (b & 16 != 0) == e4 && (b & 32 != 0) == e5 && (b & 64 != 0) == e6 && (b & 128 != 0) == e7;
  }

  function ByteOf(bits: seq<bool>): (b: bv8)
    requires |bits| == 8
    ensures ByteBits(b) == bits
  {
    hide Join, ByteBits;
    Joined(bits[0], bits[1], bits[2], bits[3], bits[4], bits[5], bits[6], bits[7]);
    Join(bits[0], bits[1], bits[2], bits[3], bits[4], bits[5], bits[6], bits[7])
  }

  function Bytes(bits: seq<bool>): (s: seq<bv8>)
    requires |bits| % 8 == 0
    ensures Bits(s) == bits
  {
    if bits == [] then [] else
      assert bits == bits[..8] + bits[8..];
      [ByteOf(bits[..8])] + Bytes(bits[8..])
  }

  // The bits with the generator added from position k on.
  function Disturbed(x: seq<bool>, k: nat): (y: seq<bool>)
    requires k + 33 <= |x|
    ensures |y| == |x| && IsGeneratorAt(Diff(x, y), k)
  {
    hide Generator, Diff;
    var y := x[..k] + Diff(x[k..k + 33], Generator()) + x[k + 33..];
    assert Diff(x, y)[k..k + 33] == Generator();
    y
  }

  // The buffer with the generator added at bit k.
  function Corrupted(a: seq<bv8>, k: nat): (b: seq<bv8>)
    requires k + 33 <= 8 * |a|
    ensures |b| == |a| && IsGeneratorAt(Diff(Bits(a), Bits(b)), k)
  {
    hide Bits, Generator, Bytes, Disturbed, Diff, IsGeneratorAt;
    Bytes(Disturbed(Bits(a), k))
  }

  // Every buffer of five bytes or more has, at every position, a corruption of
  // 33 bits that goes unnoticed.
  lemma {:induction false} CorruptionMissed(c: bv64, a: seq<bv8>, k: nat)
    requires k + 33 <= 8 * |a|
    ensures Corrupted(a, k) != a && Crc(c, Corrupted(a, k)) == Crc(c, a)
  {
    hide Crc, Bits, Corrupted;
    BurstOf33Missed(c, a, Corrupted(a, k), k);
    var d := Diff(Bits(a), Bits(Corrupted(a, k)));
    assert d[k..k + 33][0] == Generator()[0];
  }

  // ---- What the checksum is -------------------------------------------------------

  function Low(x: bv64): bv8 {
    (x & 0xFF) as bv8
  }

  function Down(x: bv64): bv64 {
    x >> 8
  }

  function Not(b: bv8): bv8 {
    b ^ 0xFF
  }

  // The four bytes of a 32-bit value, least significant first.
  function Trailer(v: bv64): (t: seq<bv8>)
    ensures |t| == 4
  {
    [Low(v), Low(Down(v)), Low(Down(Down(v))), Low(Down(Down(Down(v))))]
  }

  lemma {:induction false} NoLowByte(y: bv64)
    ensures Xor(y, Low(y) as bv64) == (y >> 8) << 8
  {
  }

  // A register that is fed its own low byte shifts it out.
  lemma {:induction false} OwnByte(y: bv64)
    ensures Shift8(Xor(y, Low(y) as bv64)) == Down(y)
  {
    hide Shift8, Xor, Low;
    NoLowByte(y);
    Shift8High(y);
  }

  lemma {:induction false} NotByte(b: bv8)
    ensures Not(b) as bv64 == Xor(b as bv64, 0xFF)
  {
  }

  lemma {:induction false} ResidueStep(y: bv64, x: bv64)
    ensures Shift8(Xor(Xor(y, x), Not(Low(y)) as bv64)) == Xor(Down(y), Shift8(Xor(x, 0xFF)))
  {
    hide Shift8, Xor, Low, Not, Down;
    NotByte(Low(y));
    XorSwap(y, x, Low(y) as bv64, 0xFF);
    Shift8Xor(Xor(y, Low(y) as bv64), Xor(x, 0xFF));
    OwnByte(y);
  }

  lemma {:induction false} ComplementedBytes(r: bv64)
    requires r <= MASK
    ensures var v := Xor(r, MASK);
      && Low(v) == Not(Low(r))
      && Low(Down(v)) == Not(Low(Down(r)))
      && Low(Down(Down(v))) == Not(Low(Down(Down(r))))
      && Low(Down(Down(Down(v)))) == Not(Low(Down(Down(Down(r)))))
    ensures Down(Down(Down(Down(r)))) == 0x0
  {
  }

  lemma {:induction false} FourOnes()
    ensures Shift8(Xor(0x0, 0xFF)) == 0x2D02EF8D
    ensures Shift8(Xor(0x2D02EF8D, 0xFF)) == 0xBE2612FF
    ensures Shift8(Xor(0xBE2612FF, 0xFF)) == 0xBE2612
    ensures Shift8(Xor(0xBE2612, 0xFF)) == 0xDEBB20E3
  {
  }

  lemma {:induction false} ComplementFed(r: bv64, t: seq<bv8>, k: nat, y: bv64, x: bv64)
    requires k < |t| && t[k] == Not(Low(y)) && Serial(r, Bits(t[..k])) == Xor(y, x)
    ensures Serial(r, Bits(t[..k + 1])) == Xor(Down(y), Shift8(Xor(x, 0xFF)))
  {
    hide Shift, Clock, Serial, Bits, Xor, Shift8, Low, Not, Down;
    SerialShift8(r, t, k);
    ResidueStep(y, x);
  }

  lemma {:induction false} TrailerIs(v: bv64, t: seq<bv8>)
    requires t == Trailer(v)
    ensures |t| == 4 && t[0] == Low(v) && t[1] == Low(Down(v)) && t[2] == Low(Down(Down(v)))
    ensures t[3] == Low(Down(Down(Down(v)))) && t[..0] == [] && t[..4] == t
  {
    hide Low, Down;
  }

  // Whatever the register holds, its own complement takes it to one value.
  lemma {:induction false} SelfCheck(r: bv64, t: seq<bv8>)
    requires r <= MASK && t == Trailer(Xor(r, MASK))
    ensures Serial(r, Bits(t)) == 0xDEBB20E3
  {
    ComplementedBytes(r);
    hide *;
    TrailerIs(Xor(r, MASK), t);
    FourOnes();
    EmptyBits(r);
    XorUnit(r);
    ComplementFed(r, t, 0, r, 0x0);
    ComplementFed(r, t, 1, Down(r), 0x2D02EF8D);
    ComplementFed(r, t, 2, Down(Down(r)), 0xBE2612FF);
    ComplementFed(r, t, 3, Down(Down(Down(r))), 0xBE2612);
    XorUnit(0xDEBB20E3);
  }

  lemma {:induction false} ResidueValue()
    ensures Xor(0xDEBB20E3, MASK) == 0x2144DF1C
  {
  }

  // The residue law: a buffer followed by its own checksum, least significant
  // byte first, has the checksum 0x2144DF1C, for every buffer and every starting
  // value.
  lemma {:induction false} Residue(c: bv64, s: seq<bv8>)
    requires c <= MASK
    ensures Crc(c, s + Trailer(Crc(c, s))) == 0x2144DF1C
  {
    hide Shift, Clock, Bits, Xor, Trailer, Serial;
    var start := Xor(c, MASK);
    var r := Serial(start, Bits(s));
    MaskInRange(c);
    SerialInRange(start, Bits(s));
    var t := Trailer(Xor(r, MASK));
    SelfCheck(r, t);
    BitsConcat(s, t);
    SerialConcat(start, Bits(s), Bits(t));
    ResidueValue();
  }

  lemma {:induction false} SerialConcat(c: bv64, x: seq<bool>, y: seq<bool>)
    ensures Serial(c, x + y) == Serial(Serial(c, x), y)
  {
    FoldConcat(Clock, c, x, y);
  }

  lemma {:induction false} ByteFed(c: bv64, s: seq<bv8>, k: nat, b: bv8, x: bv64, y: bv64)
    requires k < |s| && s[k] == b && Serial(c, Bits(s[..k])) == x && Shift8(Xor(x, b as bv64)) == y
    ensures Serial(c, Bits(s[..k + 1])) == y
  {
    hide Shift, Clock, Serial, Bits, Xor, Shift8;
    SerialShift8(c, s, k);
  }

  lemma {:induction false} CheckSteps()
    ensures Shift8(Xor(0xFFFFFFFF, 0x31 as bv8 as bv64)) == 0x7C231048
    ensures Shift8(Xor(0x7C231048, 0x32 as bv8 as bv64)) == 0xB0ACBB32
    ensures Shift8(Xor(0xB0ACBB32, 0x33 as bv8 as bv64)) == 0x77B79C2D
    ensures Shift8(Xor(0x77B79C2D, 0x34 as bv8 as bv64)) == 0x641C1F5C
    ensures Shift8(Xor(0x641C1F5C, 0x35 as bv8 as bv64)) == 0x340AC5E3
    ensures Shift8(Xor(0x340AC5E3, 0x36 as bv8 as bv64)) == 0xF68D2C9E
    ensures Shift8(Xor(0xF68D2C9E, 0x37 as bv8 as bv64)) == 0xAFFC9660
    ensures Shift8(Xor(0xAFFC9660, 0x38 as bv8 as bv64)) == 0x651F2550
    ensures Shift8(Xor(0x651F2550, 0x39 as bv8 as bv64)) == 0x340BC6D9
  {
  }

  lemma {:induction false} CheckEnds()
    ensures Xor(0x0, MASK) == 0xFFFFFFFF && Xor(0x340BC6D9, MASK) == 0xCBF43926
  {
  }

  const NINE_DIGITS: seq<bv8> := [0x31, 0x32, 0x33, 0x34, 0x35, 0x36, 0x37, 0x38, 0x39]

  lemma {:induction false} Digits(s: seq<bv8>)
    requires s == NINE_DIGITS
    ensures |s| == 9 && s[0] == 0x31 && s[1] == 0x32 && s[2] == 0x33 && s[3] == 0x34 && s[4] == 0x35
    ensures s[5] == 0x36 && s[6] == 0x37 && s[7] == 0x38 && s[8] == 0x39
    ensures s[..0] == [] && s[..9] == s
  {
  }

  lemma {:induction false} DigitsFed(s: seq<bv8>)
    requires s == NINE_DIGITS
    ensures Serial(0xFFFFFFFF, Bits(s)) == 0x340BC6D9
  {
    hide *;
    Digits(s);
    CheckSteps();
    EmptyBits(0xFFFFFFFF);
    ByteFed(0xFFFFFFFF, s, 0, 0x31, 0xFFFFFFFF, 0x7C231048);
    ByteFed(0xFFFFFFFF, s, 1, 0x32, 0x7C231048, 0xB0ACBB32);
    ByteFed(0xFFFFFFFF, s, 2, 0x33, 0xB0ACBB32, 0x77B79C2D);
    ByteFed(0xFFFFFFFF, s, 3, 0x34, 0x77B79C2D, 0x641C1F5C);
    ByteFed(0xFFFFFFFF, s, 4, 0x35, 0x641C1F5C, 0x340AC5E3);
    ByteFed(0xFFFFFFFF, s, 5, 0x36, 0x340AC5E3, 0xF68D2C9E);
    ByteFed(0xFFFFFFFF, s, 6, 0x37, 0xF68D2C9E, 0xAFFC9660);
    ByteFed(0xFFFFFFFF, s, 7, 0x38, 0xAFFC9660, 0x651F2550);
    ByteFed(0xFFFFFFFF, s, 8, 0x39, 0x651F2550, 0x340BC6D9);
  }

  // The published check value: the checksum of the nine digits "123456789".
  lemma {:induction false} CheckValue()
    ensures Crc(0, NINE_DIGITS) == 0xCBF43926
  {
    hide Serial, Bits, Xor;
    DigitsFed(NINE_DIGITS);
    CheckEnds();
  }
}
