/** Bytes and big-endian integers. */
module Bytes {
  type u8 = n: nat | n <= 0xFF
  type u16 = n: nat | n <= 0xFFFF
  type u32 = n: nat | n <= 0xFFFF_FFFF
  type u64 = n: nat | n <= 0xFFFF_FFFF_FFFF_FFFF

  function Pow256(width: nat): nat {
    if width == 0 then 1 else 256 * Pow256(width - 1)
  }

  /** `n` in `width` bytes, most significant first; higher digits are cut off. */
  function BigEndian(n: nat, width: nat): (r: seq<u8>)
    ensures |r| == width
  {
    if width == 0 then [] else BigEndian(n / 256, width - 1) + [n % 256]
  }

  function FromBigEndian(bytes: seq<u8>): (r: nat)
    ensures r < Pow256(|bytes|)
  {
    if bytes == [] then 0 else FromBigEndian(bytes[..|bytes| - 1]) * 256 + bytes[|bytes| - 1]
  }

  lemma {:induction false} BigEndianRoundTrip(n: nat, width: nat)
    requires n < Pow256(width)
    ensures FromBigEndian(BigEndian(n, width)) == n
  {
    if width != 0 {
      BigEndianRoundTrip(n / 256, width - 1);
      var r := BigEndian(n, width);
      assert r[..|r| - 1] == BigEndian(n / 256, width - 1);
    }
  }

  lemma {:induction false} FieldRanges()
    ensures Pow256(2) == 0x1_0000
    ensures Pow256(4) == 0x1_0000_0000
    ensures Pow256(8) == 0x1_0000_0000_0000_0000
  {
    assert Pow256(2) == 0x1_0000;
    assert Pow256(4) == 0x1_0000_0000;
    assert Pow256(6) == 0x1_0000_0000_0000;
  }

  function PutU16(n: u16): (r: seq<u8>)
    ensures |r| == 2 && GetU16(r) == n
  {
    FieldRanges(); BigEndianRoundTrip(n, 2);
    BigEndian(n, 2)
  }

  function GetU16(bytes: seq<u8>): u16
    requires |bytes| == 2
  {
    FieldRanges();
    FromBigEndian(bytes)
  }

  function PutU32(n: u32): (r: seq<u8>)
    ensures |r| == 4 && GetU32(r) == n
  {
    FieldRanges(); BigEndianRoundTrip(n, 4);
    BigEndian(n, 4)
  }

  function GetU32(bytes: seq<u8>): u32
    requires |bytes| == 4
  {
    FieldRanges();
    FromBigEndian(bytes)
  }

  function PutU64(n: u64): (r: seq<u8>)
    ensures |r| == 8 && GetU64(r) == n
  {
    FieldRanges(); BigEndianRoundTrip(n, 8);
    BigEndian(n, 8)
  }

  function GetU64(bytes: seq<u8>): u64
    requires |bytes| == 8
  {
    FieldRanges();
    FromBigEndian(bytes)
  }

  /** A growable byte buffer, as the codec reads from and appends to. */
  class BytesMut {
    var data: seq<u8>

    constructor (initial: seq<u8>)
      ensures data == initial
    {
      data := initial;
    }

    method Put(bytes: seq<u8>)
      modifies this
      ensures data == old(data) + bytes
    {
      data := data + bytes;
    }

    method SplitTo(n: nat) returns (front: seq<u8>)
      requires n <= |data|
      modifies this
      ensures front == old(data)[..n] && data == old(data)[n..]
    {
      front := data[..n];
      data := data[n..];
    }
  }
}
