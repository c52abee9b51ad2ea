/** Byte strings as they travel on the serial line, and the little-endian words inside them. */
module Bytes {
  type Byte = b: int | 0 <= b < 256
  type Bytes = seq<Byte>

  datatype Option<T> = None | Some(value: T)

  lemma AppendNothing<X>(a: seq<X>)
    ensures a + [] == a
    ensures [] + a == a
  {
  }

  lemma Regroup<X>(a: seq<X>, b: seq<X>, c: seq<X>)
    ensures (a + b) + c == a + (b + c)
  {
  }

  /** `int.from_bytes(pair, "little")`. */
  function Number(lo: Byte, hi: Byte): nat {
    lo + 256 * hi
  }

  /** `n.to_bytes(2, "little")`. */
  function Split(n: nat): Bytes
    requires n < 0x1_0000
  {
    [n % 256, n / 256]
  }

  /** The byte stream that a list of reads delivers. */
  function Flatten(chunks: seq<Bytes>): Bytes {
    if chunks == [] then [] else chunks[0] + Flatten(chunks[1..])
  }

  lemma {:induction false} FlattenConcat(a: seq<Bytes>, b: seq<Bytes>)
    ensures Flatten(a + b) == Flatten(a) + Flatten(b)
  {
    if a == [] {
      assert a + b == b;
    } else {
      assert (a + b)[1..] == a[1..] + b;
      FlattenConcat(a[1..], b);
    }
  }

  // ---------------------------------------------------------------- bit vectors

  /** Bits, least significant first. */
  type Bits = seq<bool>

  /** The `width` low bits of a number. */
  function BitsOf(n: nat, width: nat): (b: Bits)
    ensures |b| == width
  {
    if width == 0 then [] else [n % 2 == 1] + BitsOf(n / 2, width - 1)
  }

  function Pack(b: Bits): nat {
    if b == [] then 0 else (if b[0] then 1 else 0) + 2 * Pack(b[1..])
  }

  function Power2(n: nat): nat {
    if n == 0 then 1 else 2 * Power2(n - 1)
  }

  lemma {:induction false} PackOfBits(n: nat, width: nat)
    requires n < Power2(width)
    ensures Pack(BitsOf(n, width)) == n
  {
    if width > 0 {
      PackOfBits(n / 2, width - 1);
      assert BitsOf(n, width)[1..] == BitsOf(n / 2, width - 1);
    }
  }

  lemma {:induction false} BitsOfPack(b: Bits)
    ensures Pack(b) < Power2(|b|) && BitsOf(Pack(b), |b|) == b
  {
    if b != [] {
      BitsOfPack(b[1..]);
      assert Pack(b) / 2 == Pack(b[1..]);
      assert b == [b[0]] + b[1..];
    }
  }

  function Octet(b: Byte): Bits {
    BitsOf(b, 8)
  }

  lemma OctetInjective(a: Byte, b: Byte)
    requires Octet(a) == Octet(b)
    ensures a == b
  {
    assert Power2(8) == 256;
    PackOfBits(a, 8);
    PackOfBits(b, 8);
  }

  function ByteOf(b: Bits): (r: Byte)
    requires |b| == 8
    ensures Octet(r) == b
  {
    BitsOfPack(b);
    assert Power2(8) == 256;
    Pack(b)
  }
}
