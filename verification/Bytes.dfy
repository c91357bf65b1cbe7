/**
 Bytes, big-endian fields and the growable buffer the codecs read from and write to.
 */
module Bytes {

  type byte = x: int | 0 <= x < 0x100
  type u16 = x: int | 0 <= x < 0x1_0000
  type u32 = x: int | 0 <= x < 0x1_0000_0000

  // The longest array the platform can hold; every payload and ext header is one.
  const MAX_ARRAY: int := 0x7FFF_FFFF

  function Pow256(w: nat): (p: nat)
    ensures p >= 1
  {
    if w == 0 then 1 else 0x100 * Pow256(w - 1)
  }

  /** The low `w` bytes of `n`, high byte first. */
  function BigEndian(n: nat, w: nat): (b: seq<byte>)
    ensures |b| == w
    decreases n, w
  {
    if w == 0 then [] else BigEndian(n / 0x100, w - 1) + [n % 0x100]
  }

  /** The number `b` spells, high byte first. */
  function FromBigEndian(b: seq<byte>): (n: nat)
    ensures n < Pow256(|b|)
  {
    if b == [] then 0 else 0x100 * FromBigEndian(b[..|b| - 1]) + b[|b| - 1]
  }

  function U16(n: nat): seq<byte> {
    BigEndian(n, 2)
  }

  function U32(n: nat): seq<byte> {
    BigEndian(n, 4)
  }

  function GetU16(b: seq<byte>, at: nat): u16
    requires at + 2 <= |b|
  {
    assert Pow256(2) == 0x1_0000;
    FromBigEndian(b[at..at + 2])
  }

  function GetU32(b: seq<byte>, at: nat): u32
    requires at + 4 <= |b|
  {
    assert Pow256(4) == 0x1_0000_0000;
    FromBigEndian(b[at..at + 4])
  }

  /** The low `w` bytes of `n` as a number. */
  function Low(n: nat, w: nat): nat {
    if w == 0 then 0 else 0x100 * Low(n / 0x100, w - 1) + n % 0x100
  }

  lemma {:induction false} WriteThenGet(n: nat, w: nat)
    ensures FromBigEndian(BigEndian(n, w)) == Low(n, w)
    decreases w
  {
    if w > 0 {
      WriteThenGet(n / 0x100, w - 1);
      assert BigEndian(n, w)[..w - 1] == BigEndian(n / 0x100, w - 1);
    }
  }

  lemma LowIsMod16(n: nat)
    ensures Low(n, 2) == n % 0x1_0000
  {
    assert Low(n, 2) == 0x100 * Low(n / 0x100, 1) + n % 0x100;
    assert Low(n / 0x100, 1) == n / 0x100 % 0x100;
  }

  lemma LowIsMod32(n: nat)
    ensures Low(n, 4) == n % 0x1_0000_0000
  {
    var m := n / 0x100;
    var h := m / 0x100;
    LowIsMod16(h);
    assert Low(n, 4) == 0x100 * Low(m, 3) + n % 0x100;
    assert Low(m, 3) == 0x100 * Low(h, 2) + m % 0x100;
  }

  /** Writing a field keeps the value modulo the field's width. */
  lemma FieldsKeepLowBits(n: nat)
    ensures FromBigEndian(U16(n)) == n % 0x1_0000
    ensures FromBigEndian(U32(n)) == n % 0x1_0000_0000
  {
    WriteThenGet(n, 2);
    WriteThenGet(n, 4);
    LowIsMod16(n);
    LowIsMod32(n);
  }

  /** Reading a field and writing it back reproduces the bytes. */
  lemma {:induction false} GetThenWrite(b: seq<byte>)
    ensures BigEndian(FromBigEndian(b), |b|) == b
  {
    if b != [] {
      GetThenWrite(b[..|b| - 1]);
    }
  }

  /** The readable part of a buffer: writes append, reads and skips take from the front. */
  class Buffer {
    var readable: seq<byte>

    constructor ()
      ensures readable == []
    {
      readable := [];
    }

    method WriteByte(b: byte)
      modifies this
      ensures readable == old(readable) + [b]
    {
      readable := readable + [b];
    }

    method WriteShort(n: nat)
      modifies this
      ensures readable == old(readable) + U16(n)
    {
      readable := readable + U16(n);
    }

    method WriteInt(n: nat)
      modifies this
      ensures readable == old(readable) + U32(n)
    {
      readable := readable + U32(n);
    }

    method WriteBytes(b: seq<byte>)
      modifies this
      ensures readable == old(readable) + b
    {
      readable := readable + b;
    }

    method ReadBytes(n: nat) returns (b: seq<byte>)
      requires n <= |readable|
      modifies this
      ensures b == old(readable)[..n] && readable == old(readable)[n..]
    {
      b := readable[..n];
      readable := readable[n..];
    }
  }

  /** Big-endian, byte by byte. */
  lemma Spelled(b: seq<byte>)
    ensures |b| == 2 ==> FromBigEndian(b) == b[0] as int * 0x100 + b[1]
    ensures |b| == 4 ==> FromBigEndian(b) == b[0] as int * 0x100_0000 + b[1] as int * 0x1_0000 + b[2] as int * 0x100 + b[3]
  {
    if |b| == 4 {
      Spelled(b[..2]);
      assert b[..3][..2] == b[..2];
    }
  }
}
