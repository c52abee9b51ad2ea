/**
 The LMS2xx checksum (section 9 of the SICK Telegram Listing): one shift per byte, then the
 word made of the previous and the current byte is XORed in.  The step is linear over XOR,
 which is what the error-detection theorems below rest on.
 */
module Crc {
  import opened Bytes

  /** Sixteen bits, least significant first. */
  type Word = w: Bits | |w| == 16 witness BitsOf(0, 16)

  const NONE: Word := BitsOf(0, 16)
  /** 8005h: bits 15, 2 and 0. */
  const POLYNOMIAL: Word := [true, false, true] + BitsOf(0, 12) + [true]

  /** `(previous << 8) | current`. */
  function Join(current: Byte, previous: Byte): Word {
    Octet(current) + Octet(previous)
  }

  /** `w.to_bytes(2, "little")`. */
  function WordBytes(w: Word): (b: Bytes)
    ensures |b| == 2 && Join(b[0], b[1]) == w
  {
    [ByteOf(w[..8]), ByteOf(w[8..])]
  }

  function Xor(a: Bits, b: Bits): (c: Bits)
    requires |a| == |b|
    ensures |c| == |a| && forall i | 0 <= i < |a| :: c[i] == (a[i] != b[i])
  {
    seq(|a|, i requires 0 <= i < |a| => a[i] != b[i])
  }

  /** `(w << 1) & 0xFFFF`. */
  function Left(w: Word): (s: Word)
    ensures !s[0] && forall i | 0 < i < 16 :: s[i] == w[i - 1]
  {
    [false] + w[..15]
  }

  function Shift(w: Word): Word {
    Xor(Left(w), if w[15] then POLYNOMIAL else NONE)
  }

  function Next(r: Word, previous: Byte, current: Byte): Word {
    Xor(Shift(r), Join(current, previous))
  }

  /** The accumulator after `data`, starting from accumulator `r` and last byte `previous`. */
  function Run(r: Word, previous: Byte, data: Bytes): Word
    decreases |data|
  {
    if data == [] then r else Run(Next(r, previous, data[0]), data[0], data[1..])
  }

  function Crc16(data: Bytes): Word {
    Run(NONE, 0, data)
  }

  /** `crc16` of crc.py. */
  method Crc16Python(data: Bytes) returns (result: Word)
    ensures result == Crc16(data)
  {
    result := NONE;
    var previous: Byte := 0;
    for i := 0 to |data|
      invariant Run(NONE, 0, data) == Run(result, previous, data[i..])
    {
      var current := data[i];
      result := Xor(Left(result), if result[15] then POLYNOMIAL else NONE);
      result := Xor(result, Join(current, previous));
      previous := current;
      assert data[i..][1..] == data[i + 1..];
    }
  }

  /** `crc16` of protocol.cpp: the carry is sampled before the shift and folded in after it. */
  method Crc16Native(data: Bytes) returns (crc: Word)
    ensures crc == Crc16(data)
  {
    crc := NONE;
    var previous: Byte := 0;
    for i := 0 to |data|
      invariant Run(NONE, 0, data) == Run(crc, previous, data[i..])
    {
      var carry := crc[15];
      XorNone(Left(crc));
      crc := Left(crc);
      if carry {
        crc := Xor(crc, POLYNOMIAL);
      }
      crc := Xor(crc, Join(data[i], previous));
      previous := data[i];
      assert data[i..][1..] == data[i + 1..];
    }
  }

  // ---------------------------------------------------------------- additivity

  lemma {:induction false} ZeroBits(width: nat)
    ensures forall i | 0 <= i < width :: !BitsOf(0, width)[i]
  {
    if width > 0 {
      ZeroBits(width - 1);
      assert BitsOf(0, width) == [false] + BitsOf(0, width - 1);
    }
  }

  lemma NoneIsZero()
    ensures forall i | 0 <= i < 16 :: !NONE[i]
    ensures forall i | 0 <= i < 8 :: !Octet(0)[i]
    ensures Join(0, 0) == NONE
  {
    ZeroBits(16);
    ZeroBits(8);
  }

  lemma XorNone(w: Word)
    ensures Xor(w, NONE) == w && Xor(NONE, w) == w
  {
    NoneIsZero();
  }

  lemma XorZero(a: Bits, b: Bits)
    requires |a| == |b|
    ensures Xor(a, b) == BitsOf(0, |a|) <==> a == b
  {
    ZeroBits(|a|);
    if Xor(a, b) == BitsOf(0, |a|) {
      forall i | 0 <= i < |a|
        ensures a[i] == b[i]
      {
        assert !Xor(a, b)[i];
      }
    }
  }

  lemma XorSums(a: Word, b: Word, c: Word, d: Word)
    ensures Xor(Xor(a, b), Xor(c, d)) == Xor(Xor(a, c), Xor(b, d))
  {
  }

  lemma ShiftLinear(r: Word, s: Word)
    ensures Shift(Xor(r, s)) == Xor(Shift(r), Shift(s))
  {
    NoneIsZero();
  }

  /** The byte whose bits are the XOR of two bytes. */
  function ByteXor(a: Byte, b: Byte): Byte {
    ByteOf(Xor(Octet(a), Octet(b)))
  }

  lemma JoinLinear(a: Byte, b: Byte, p: Byte, q: Byte)
    ensures Join(ByteXor(a, b), ByteXor(p, q)) == Xor(Join(a, p), Join(b, q))
  {
  }

  lemma NextLinear(r: Word, s: Word, p: Byte, q: Byte, a: Byte, b: Byte)
    ensures Next(Xor(r, s), ByteXor(p, q), ByteXor(a, b)) == Xor(Next(r, p, a), Next(s, q, b))
  {
    ShiftLinear(r, s);
    JoinLinear(a, b, p, q);
    XorSums(Shift(r), Shift(s), Join(a, p), Join(b, q));
  }

  function BytesXor(a: Bytes, b: Bytes): (c: Bytes)
    requires |a| == |b|
    ensures |c| == |a|
  {
    seq(|a|, i requires 0 <= i < |a| => ByteXor(a[i], b[i]))
  }

  lemma {:induction false} RunLinear(r: Word, s: Word, p: Byte, q: Byte, a: Bytes, b: Bytes)
    requires |a| == |b|
    ensures Run(Xor(r, s), ByteXor(p, q), BytesXor(a, b)) == Xor(Run(r, p, a), Run(s, q, b))
    decreases |a|
  {
    hide Next;
    if a != [] {
      NextLinear(r, s, p, q, a[0], b[0]);
      assert BytesXor(a, b)[1..] == BytesXor(a[1..], b[1..]);
      RunLinear(Next(r, p, a[0]), Next(s, q, b[0]), a[0], b[0], a[1..], b[1..]);
    }
  }

  lemma ByteXorZero(a: Byte, b: Byte)
    ensures ByteXor(a, b) == 0 <==> a == b
  {
    XorZero(Octet(a), Octet(b));
    if ByteXor(a, b) == 0 {
      OctetInjective(a, b);
    } else if a == b {
      OctetInjective(ByteXor(a, b), 0);
    }
  }

  /** The checksum is additive under XOR on strings of equal length. */
  lemma CrcAdditive(a: Bytes, b: Bytes)
    requires |a| == |b|
    ensures Crc16(BytesXor(a, b)) == Xor(Crc16(a), Crc16(b))
  {
    RunLinear(NONE, NONE, 0, 0, a, b);
    XorNone(NONE);
    ByteXorZero(0, 0);
  }

  // ---------------------------------------------------------------- error detection

  function Zeros(n: nat): (z: Bytes)
    ensures |z| == n
  {
    seq(n, _ => 0)
  }

  predicate ShiftBit(r: Word, i: nat)
    requires i < 16
  {
    (i > 0 && r[i - 1]) != ((i == 0 || i == 2 || i == 15) && r[15])
  }

  lemma ShiftBits(r: Word)
    ensures forall i | 0 <= i < 16 :: Shift(r)[i] == ShiftBit(r, i)
  {
    NoneIsZero();
    ZeroBits(12);
    assert forall i | 0 <= i < 16 :: POLYNOMIAL[i] == (i == 0 || i == 2 || i == 15);
  }

  /** A zero byte behind a zero byte loses nothing. */
  lemma ZeroStepInjective(r: Word, s: Word)
    requires Next(r, 0, 0) == Next(s, 0, 0)
    ensures r == s
  {
    NoneIsZero();
    XorNone(Shift(r));
    XorNone(Shift(s));
    ShiftBits(r);
    ShiftBits(s);
    hide Shift;
    assert ShiftBit(r, 0) == ShiftBit(s, 0);
    forall i | 0 <= i < 15
      ensures r[i] == s[i]
    {
      assert ShiftBit(r, i + 1) == ShiftBit(s, i + 1);
    }
  }

  lemma NextOfNothing()
    ensures Next(NONE, 0, 0) == NONE
  {
    NoneIsZero();
    XorNone(NONE);
    XorNone(Left(NONE));
    assert Left(NONE) == NONE;
  }

  /** Zero bytes neither create nor cancel a difference. */
  lemma {:induction false} ZerosKeep(r: Word, n: nat)
    ensures Run(r, 0, Zeros(n)) == NONE <==> r == NONE
    decreases n
  {
    hide Next;
    if n > 0 {
      var next := Next(r, 0, 0);
      assert Zeros(n)[1..] == Zeros(n - 1);
      NextOfNothing();
      if next == NONE {
        ZeroStepInjective(r, NONE);
      }
      ZerosKeep(next, n - 1);
    }
  }

  /** Leading zero bytes leave the initial register as it is. */
  lemma {:induction false} ZerosFirst(n: nat, data: Bytes)
    ensures Crc16(Zeros(n) + data) == Crc16(data)
    decreases n
  {
    hide Next;
    if n == 0 {
      assert Zeros(n) + data == data;
    } else {
      NextOfNothing();
      assert (Zeros(n) + data)[1..] == Zeros(n - 1) + data;
      ZerosFirst(n - 1, data);
    }
  }

  /** A two-byte error reaches the high half of the accumulator at once. */
  lemma PairSeen(d: Byte, e: Byte)
    requires d != 0 || e != 0
    ensures Next(Next(NONE, 0, d), d, e) != NONE
  {
    var first, r := Next(NONE, 0, d), Next(Next(NONE, 0, d), d, e);
    FirstStep(d);
    NoneIsZero();
    if r == NONE {
      forall i | 0 <= i < 8
        ensures !Octet(d)[i]
      {
        assert !r[i + 8];
        assert r[15] == Octet(d)[7];
        assert r[8] == (Octet(d)[7] != Octet(d)[0]);
      }
      OctetInjective(d, 0);
      NextOfNothing();
      FirstStep(e);
      assert Octet(e) == Octet(0);
      OctetInjective(e, 0);
    }
  }

  lemma FirstStep(d: Byte)
    ensures Next(NONE, 0, d) == Join(d, 0)
  {
    NoneIsZero();
    XorNone(NONE);
    XorNone(Left(NONE));
    assert Left(NONE) == NONE;
    XorNone(Join(d, 0));
  }

  /** The second error byte is the first one doubled, without overflow. */
  predicate Doubles(d: Byte, e: Byte) {
    e == 2 * d
  }

  lemma {:induction false} BitsOfPrefix(n: nat, width: nat)
    requires n < Power2(width + 1)
    ensures BitsOf(n, width + 1) == BitsOf(n, width) + [n >= Power2(width)]
  {
    if width > 0 {
      BitsOfPrefix(n / 2, width - 1);
    }
  }

  lemma DoublesBits(d: Byte, e: Byte)
    ensures Doubles(d, e) <==> !Octet(d)[7] && Octet(e) == [false] + Octet(d)[..7]
  {
    assert Power2(7) == 128 && Power2(8) == 256;
    BitsOfPrefix(d, 7);
    assert Octet(d)[..7] == BitsOf(d, 7);
    if d < 128 {
      assert Octet(2 * d) == [false] + BitsOf(d, 7);
      if Octet(e) == Octet(2 * d) {
        OctetInjective(e, 2 * d);
      }
    }
  }

  lemma NextBits(r: Word, previous: Byte, current: Byte)
    ensures forall i | 0 <= i < 8 :: Next(r, previous, current)[i] == (ShiftBit(r, i) != Octet(current)[i])
    ensures forall i | 8 <= i < 16 ::
      Next(r, previous, current)[i] == (ShiftBit(r, i) != Octet(previous)[i - 8])
  {
    ShiftBits(r);
    hide Shift;
  }

  /** The bits behind a two-byte error d, e, and behind one more unchanged byte. */
  lemma PairBits(d: Byte, e: Byte, r: Word, t: Word)
    requires r == Next(Join(d, 0), d, e) && t == Next(r, e, 0)
    ensures var D, E := Octet(d), Octet(e);
      && (forall i | 0 <= i < 8 :: r[i] == ((i > 0 && D[i - 1]) != E[i]))
      && (forall i | 8 <= i < 16 :: r[i] == ((i == 8 && D[7]) != D[i - 8]))
      && (forall i | 0 <= i < 8 :: t[i] == ShiftBit(r, i))
      && (forall i | 8 <= i < 16 :: t[i] == (ShiftBit(r, i) != E[i - 8]))
  {
    hide Next;
    NoneIsZero();
    NextBits(Join(d, 0), d, e);
    NextBits(r, e, 0);
  }

  lemma CancelledIsDouble(d: Byte, e: Byte, r: Word, t: Word)
    requires r == Next(Join(d, 0), d, e) && t == Next(r, e, 0)
    requires t == NONE
    ensures !Octet(d)[7] && Octet(e) == [false] + Octet(d)[..7]
  {
    var D, E := Octet(d), Octet(e);
    PairBits(d, e, r, t);
    NoneIsZero();
    hide Next, NONE;
    assert !t[0] && r[15] == D[7];
    forall i | 0 <= i < 7
      ensures !r[i]
    {
      assert !t[i + 1];
    }
    assert !r[0] && !E[0];
    assert !t[8] && !r[7];
    forall i | 1 <= i < 8
      ensures E[i] == D[i - 1]
    {
      assert !r[i];
    }
  }

  lemma DoubleCancels(d: Byte, e: Byte, r: Word, t: Word)
    requires r == Next(Join(d, 0), d, e) && t == Next(r, e, 0)
    requires !Octet(d)[7] && Octet(e) == [false] + Octet(d)[..7]
    ensures t == NONE
  {
    var D, E := Octet(d), Octet(e);
    PairBits(d, e, r, t);
    NoneIsZero();
    hide Next, NONE;
    assert forall i | 0 <= i < 8 :: !r[i];
    assert forall i | 8 <= i < 16 :: r[i] == D[i - 8];
    assert forall i | 0 <= i < 8 :: !t[i];
    assert forall i | 8 <= i < 16 :: !t[i];
  }

  /** One byte behind a two-byte error, the only patterns that have cancelled are the doubles. */
  lemma PairCancels(d: Byte, e: Byte)
    ensures Next(Next(Next(NONE, 0, d), d, e), e, 0) == NONE <==> Doubles(d, e)
  {
    hide Next;
    FirstStep(d);
    DoublesBits(d, e);
    var r := Next(Join(d, 0), d, e);
    var t := Next(r, e, 0);
    if t == NONE {
      CancelledIsDouble(d, e, r, t);
    } else if Doubles(d, e) {
      DoubleCancels(d, e, r, t);
    }
  }

  /** Exactly which nonzero two-byte error patterns the checksum maps to zero. */
  lemma BurstCrc(before: nat, d: Byte, e: Byte, after: nat)
    requires d != 0 || e != 0
    ensures Crc16(Zeros(before) + [d, e] + Zeros(after)) == NONE <==> after > 0 && Doubles(d, e)
  {
    hide Next;
    var tail := [d, e] + Zeros(after);
    assert Zeros(before) + [d, e] + Zeros(after) == Zeros(before) + tail;
    ZerosFirst(before, tail);
    assert tail[1..] == [e] + Zeros(after) && tail[1..][1..] == Zeros(after);
    var r := Next(Next(NONE, 0, d), d, e);
    assert Crc16(tail) == Run(Next(NONE, 0, d), d, tail[1..]) == Run(r, e, Zeros(after));
    if after == 0 {
      PairSeen(d, e);
    } else {
      PairCancels(d, e);
      assert Zeros(after)[1..] == Zeros(after - 1);
      ZerosKeep(Next(r, e, 0), after - 1);
    }
  }

  /** Two strings of equal length that can differ only inside the window [i, i + n). */
  predicate AgreeOutside(a: Bytes, b: Bytes, i: nat, n: nat) {
    && |a| == |b|
    && i + n <= |a|
    && forall k | 0 <= k < |a| && !(i <= k < i + n) :: a[k] == b[k]
  }

  lemma XorOfPair(a: Bytes, b: Bytes, i: nat)
    requires AgreeOutside(a, b, i, 2)
    ensures BytesXor(a, b)
         == Zeros(i) + [ByteXor(a[i], b[i]), ByteXor(a[i + 1], b[i + 1])] + Zeros(|a| - i - 2)
  {
    hide ByteXor;
    forall k | 0 <= k < |a|
      ensures ByteXor(a[k], b[k]) == 0 <==> a[k] == b[k]
    {
      ByteXorZero(a[k], b[k]);
    }
  }

  /**
   Two different strings that differ at most in the neighbouring bytes i and i+1 collide exactly
   when the second difference is the doubled first one and at least one byte follows the pair.
   */
  lemma PairCollision(a: Bytes, b: Bytes, i: nat)
    requires AgreeOutside(a, b, i, 2)
    requires a != b
    ensures Crc16(a) == Crc16(b)
       <==> i + 2 < |a| && Doubles(ByteXor(a[i], b[i]), ByteXor(a[i + 1], b[i + 1]))
  {
    hide Crc16, ByteXor;
    XorOfPair(a, b, i);
    CrcAdditive(a, b);
    ByteXorZero(a[i], b[i]);
    ByteXorZero(a[i + 1], b[i + 1]);
    BurstCrc(i, ByteXor(a[i], b[i]), ByteXor(a[i + 1], b[i + 1]), |a| - i - 2);
    XorZero(Crc16(a), Crc16(b));
  }

  /** Changing one byte, anywhere in a string of any length, changes the checksum. */
  lemma SingleByteDetected(a: Bytes, b: Bytes, i: nat)
    requires AgreeOutside(a, b, i, 1)
    requires a[i] != b[i]
    ensures Crc16(a) != Crc16(b)
  {
    hide Crc16, ByteXor;
    ByteXorZero(a[i], b[i]);
    if i + 1 < |a| {
      ByteXorZero(a[i + 1], b[i + 1]);
      PairCollision(a, b, i);
    } else if i > 0 {
      PairCollision(a, b, i - 1);
    } else {
      OneByteCrc(a);
      OneByteCrc(b);
      if Crc16(a) == Crc16(b) {
        assert Join(a[0], 0)[..8] == Octet(a[0]) && Join(b[0], 0)[..8] == Octet(b[0]);
        OctetInjective(a[0], b[0]);
      }
    }
  }

  lemma OneByteCrc(a: Bytes)
    requires |a| == 1
    ensures Crc16(a) == Join(a[0], 0)
  {
    FirstStep(a[0]);
    assert Run(Next(NONE, 0, a[0]), a[0], a[1..]) == Next(NONE, 0, a[0]);
  }

  /** What a change of the last byte does to the checksum: it shows in the low byte only. */
  lemma LastByteCrc(a: Bytes, b: Bytes)
    requires a != [] && AgreeOutside(a, b, |a| - 1, 1)
    ensures Xor(Crc16(a), Crc16(b)) == Join(ByteXor(a[|a| - 1], b[|a| - 1]), 0)
  {
    hide Crc16, ByteXor, Join;
    var n := |a| - 1;
    var d := ByteXor(a[n], b[n]);
    forall k | 0 <= k < n
      ensures ByteXor(a[k], b[k]) == 0
    {
      ByteXorZero(a[k], b[k]);
    }
    assert BytesXor(a, b) == Zeros(n) + [d];
    CrcAdditive(a, b);
    ZerosFirst(n, [d]);
    OneByteCrc([d]);
  }

  /** A matching change of the checksum word hides a change of the checksum, and nothing else does. */
  lemma XorMatches(a: Word, b: Word, c: Word, d: Word)
    requires a == b
    ensures c == d <==> Xor(a, c) == Xor(b, d)
  {
    if Xor(a, c) == Xor(b, d) {
      forall i | 0 <= i < 16
        ensures c[i] == d[i]
      {
        assert Xor(a, c)[i] == Xor(b, d)[i];
      }
    }
  }

  lemma JoinXor(a: Byte, b: Byte, p: Byte)
    ensures Xor(Join(a, p), Join(b, p)) == Join(ByteXor(a, b), 0)
  {
    JoinLinear(a, b, p, p);
    ByteXorZero(p, p);
  }

  lemma ByteXorIs(a: Byte, b: Byte, c: Byte)
    requires Xor(Octet(a), Octet(b)) == Octet(c)
    ensures ByteXor(a, b) == c
  {
    OctetInjective(ByteXor(a, b), c);
  }

  /** 20 XOR 21 is 01, 00 XOR 02 is 02, and 02 doubles 01. */
  lemma DoublingExample()
    ensures ByteXor(0x20, 0x21) == 1 && ByteXor(0, 2) == 2 && Doubles(1, 2)
  {
    hide ByteXor;
    LowBitExample();
    SecondBitExample();
  }

  lemma LowBitExample()
    ensures ByteXor(0x20, 0x21) == 1
  {
    hide ByteXor;
    var rest, zero := BitsOf(16, 7), BitsOf(0, 7);
    assert Octet(0x20) == [false] + rest && Octet(0x21) == [true] + rest && Octet(1) == [true] + zero;
    ZeroBits(7);
    hide BitsOf, Octet;
    assert Xor(Octet(0x20), Octet(0x21)) == Octet(1);
    ByteXorIs(0x20, 0x21, 1);
  }

  lemma SecondBitExample()
    ensures ByteXor(0, 2) == 2
  {
    hide ByteXor;
    var zero := BitsOf(0, 6);
    assert Octet(0) == [false, false] + zero && Octet(2) == [false, true] + zero;
    ZeroBits(6);
    hide BitsOf, Octet;
    assert Xor(Octet(0), Octet(2)) == Octet(2);
    ByteXorIs(0, 2, 2);
  }
}
