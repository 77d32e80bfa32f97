/** The 24-byte header in its classic and flexible forms. */
module FrameHeaders {
  import opened Base
  import opened Bytes

  const HEADER_LEN: nat := 24

  datatype Magic = Request | Response | ServerRequest | AltRequest | AltResponse {
    predicate IsRequest() {
      Request? || AltRequest? || ServerRequest?
    }

    predicate IsResponse() {
      Response? || AltResponse?
    }

    predicate IsAlt() {
      AltRequest? || AltResponse?
    }

    function Byte(): (b: u8)
      ensures MagicFrom(b) == Some(this)
    {
      match this
      case Request => 0x80
      case Response => 0x81
      case ServerRequest => 0x82
      case AltRequest => 0x08
      case AltResponse => 0x18
    }
  }

  function MagicFrom(b: u8): Option<Magic> {
    if b == 0x80 then Some(Request)
    else if b == 0x81 then Some(Response)
    else if b == 0x82 then Some(ServerRequest)
    else if b == 0x08 then Some(AltRequest)
    else if b == 0x18 then Some(AltResponse)
    else None
  }

  datatype Header = Header(
    magic: Magic, opcode: u8, framingLength: u8, keyLength: u16, extrasLength: u8, datatypeByte: u8,
    statusOrVBucket: u16, bodyLength: u32, token: u32, cas: u64)
  {
    /** A flexible header has one byte for the key length; a classic one has no framing length. */
    predicate Fits() {
      if magic.IsAlt() then keyLength <= 0xFF else framingLength == 0
    }

    function Lengths(): (r: seq<u8>)
      requires Fits()
      ensures |r| == 2
    {
      if magic.IsAlt() then [framingLength, keyLength] else PutU16(keyLength)
    }

    function Front(): (r: seq<u8>)
      requires Fits()
      ensures |r| == 8
    {
      [magic.Byte(), opcode] + Lengths() + [extrasLength, datatypeByte] + PutU16(statusOrVBucket)
    }

    function Encoded(): (r: seq<u8>)
      requires Fits()
      ensures |r| == HEADER_LEN
    {
      Front() + PutU32(bodyLength) + PutU32(token) + PutU64(cas)
    }
  }

  function BodyLength(packet: seq<u8>): u32
    requires |packet| >= HEADER_LEN
  {
    GetU32(packet[8..12])
  }

  /** The header fields of a packet whose magic is known. */
  function ReadHeader(magic: Magic, packet: seq<u8>): Header
    requires |packet| >= HEADER_LEN
  {
    Header(magic, packet[1],
           if magic.IsAlt() then packet[2] else 0,
           if magic.IsAlt() then packet[3] else GetU16(packet[2..4]),
           packet[4], packet[5], GetU16(packet[6..8]),
           BodyLength(packet), GetU32(packet[12..16]), GetU64(packet[16..24]))
  }

  lemma {:induction false} FrontLayout(h: Header, rest: seq<u8>)
    requires h.Fits()
    ensures var p := h.Front() + rest;
            && p[0] == h.magic.Byte() && p[1] == h.opcode
            && p[2..4] == h.Lengths() && p[2] == h.Lengths()[0] && p[3] == h.Lengths()[1]
            && p[4] == h.extrasLength && p[5] == h.datatypeByte
            && p[6..8] == PutU16(h.statusOrVBucket)
  {
    var p := h.Front() + rest;
    assert p[2..4] == h.Front()[2..4] == h.Lengths();
    assert p[2] == p[2..4][0] && p[3] == p[2..4][1];
    assert p[6..8] == h.Front()[6..8] == PutU16(h.statusOrVBucket);
  }

  lemma {:induction false} BackLayout(front: seq<u8>, a: seq<u8>, b: seq<u8>, c: seq<u8>, rest: seq<u8>)
    requires |front| == 8 && |a| == 4 && |b| == 4 && |c| == 8
    ensures var p := front + a + b + c + rest;
            p[8..12] == a && p[12..16] == b && p[16..24] == c
  {
  }

  /** Every header that fits reads back as itself, whatever follows it. */
  lemma {:induction false} HeaderRoundTrip(h: Header, rest: seq<u8>)
    requires h.Fits()
    ensures MagicFrom((h.Encoded() + rest)[0]) == Some(h.magic)
    ensures ReadHeader(h.magic, h.Encoded() + rest) == h
    ensures BodyLength(h.Encoded() + rest) == h.bodyLength
  {
    var back := PutU32(h.bodyLength) + PutU32(h.token) + PutU64(h.cas) + rest;
    assert h.Encoded() + rest == h.Front() + back;
    FrontLayout(h, back);
    BackLayout(h.Front(), PutU32(h.bodyLength), PutU32(h.token), PutU64(h.cas), rest);
  }
}
