/** Memcached binary frames to bytes and back, one frame at a time. */
module FrameCodec {
  import opened Base
  import opened Bytes
  import opened FrameHeaders
  import opened Framing
  import Uleb128

  /** `token` is the correlation token the protocol calls opaque. */
  datatype Frame = Frame(
    magic: Magic, opcode: u8, datatypeByte: u8, vbucket: u16, status: u16, token: u32, cas: u64,
    framing: seq<FramingExtra>, extras: seq<u8>, key: seq<u8>, value: seq<u8>,
    collectionId: Option<u32>, receivedWireSize: Option<nat>)

  datatype Codec = Codec(maxFrameSize: nat, collections: bool)

  datatype CodecError =
    | BadFraming(cause: FramingError)
    | ServerRequestFraming
    | ExtrasTooLong
    | CollectionNotEncodable
    | KeyTooLong
    | FramingTooLong
    | RequestWithStatus
    | ResponseWithVBucket
    | FrameTooLarge
    | BodyTooLong
    | InvalidMagic
    | FieldsExceedBody
    | BadCollection(reason: Uleb128.UlebError)

  predicate CollectionEncoded(opcode: u8) {
    || opcode <= 0x06 || 0x0e <= opcode <= 0x0f || 0x1c <= opcode <= 0x1d || 0x57 <= opcode <= 0x59
    || opcode == 0x83 || 0x94 <= opcode <= 0x95 || opcode == 0xa0 || opcode == 0xa2 || opcode == 0xa8
    || 0xc5 <= opcode <= 0xd2
  }

  predicate Prefixes(codec: Codec, opcode: u8) {
    codec.collections && CollectionEncoded(opcode)
  }

  // ---------------------------------------------------------------- encoding

  function EncodedMagic(magic: Magic, hasFraming: bool): Result<Magic, CodecError> {
    if !hasFraming then Ok(magic)
    else
      match magic
      case Request => Ok(AltRequest)
      case AltRequest => Ok(AltRequest)
      case Response => Ok(AltResponse)
      case AltResponse => Ok(AltResponse)
      case ServerRequest => Err(ServerRequestFraming)
  }

  function UnwrapOr(id: Option<u32>, fallback: u32): u32 {
    if id.Some? then id.value else fallback
  }

  function KeyBytes(codec: Codec, frame: Frame): Result<seq<u8>, CodecError> {
    if Prefixes(codec, frame.opcode) then Ok(Uleb128.Encoded(UnwrapOr(frame.collectionId, 0)) + frame.key)
    else if frame.collectionId.Some? && frame.collectionId.value != 0 then Err(CollectionNotEncodable)
    else Ok(frame.key)
  }

  /** The pieces of one encoded frame. */
  datatype Packet = Packet(magic: Magic, framing: seq<u8>, key: seq<u8>, frame: Frame) {
    function Body(): seq<u8> {
      framing + frame.extras + key + frame.value
    }

    predicate LengthsFit() {
      && |frame.extras| <= U8_MAX
      && (if magic.IsAlt() then |key| <= U8_MAX && |framing| <= U8_MAX else |key| <= U16_MAX && framing == [])
      && |Body()| <= U32_MAX
    }

    function Head(): (h: Header)
      requires LengthsFit()
      ensures h.Fits()
    {
      Header(magic, frame.opcode, |framing|, |key|, |frame.extras|, frame.datatypeByte,
             if frame.magic.IsResponse() then frame.status else frame.vbucket,
             |Body()|, frame.token, frame.cas)
    }

    function Encoded(): (r: seq<u8>)
      requires LengthsFit()
      ensures |r| == HEADER_LEN + |framing| + |frame.extras| + |key| + |frame.value|
    {
      Head().Encoded() + Body()
    }
  }

  function LengthError(packet: Packet): Option<CodecError> {
    if packet.magic.IsAlt() && |packet.key| > U8_MAX then Some(KeyTooLong)
    else if packet.magic.IsAlt() && |packet.framing| > U8_MAX then Some(FramingTooLong)
    else if !packet.magic.IsAlt() && |packet.key| > U16_MAX then Some(KeyTooLong)
    else if packet.frame.magic.IsRequest() && packet.frame.status != 0 then Some(RequestWithStatus)
    else if packet.frame.magic.IsResponse() && packet.frame.vbucket != 0 then Some(ResponseWithVBucket)
    else None
  }

  /** What is checked of a frame before its lengths, and the pieces that come of it. */
  function Prepare(codec: Codec, frame: Frame): (r: Result<Packet, CodecError>)
    ensures r.Ok? ==> r.value.frame == frame && |frame.extras| <= U8_MAX
    ensures r.Ok? && !r.value.magic.IsAlt() ==> r.value.framing == []
  {
    var framing := EncodeExtras(frame.framing);
    if framing.Err? then Err(BadFraming(framing.error))
    else
      var magic :- EncodedMagic(frame.magic, framing.value != []);
      if |frame.extras| > U8_MAX then Err(ExtrasTooLong)
      else
        var key :- KeyBytes(codec, frame);
        Ok(Packet(magic, framing.value, key, frame))
  }

  function EncodeFrame(codec: Codec, frame: Frame): (r: Result<seq<u8>, CodecError>)
    ensures r.Ok? ==> HEADER_LEN <= |r.value| <= codec.maxFrameSize
  {
    var packet :- Prepare(codec, frame);
    if LengthError(packet).Some? then Err(LengthError(packet).value)
    else if HEADER_LEN + |packet.Body()| > codec.maxFrameSize then Err(FrameTooLarge)
    else if |packet.Body()| > U32_MAX then Err(BodyTooLong)
    else Ok(packet.Encoded())
  }

  method PreparePacket(codec: Codec, frame: Frame) returns (r: Result<Packet, CodecError>)
    ensures r == Prepare(codec, frame)
  {
    var framed := EncodeFramingExtras(frame.framing);
    if framed.Err? {
      return Err(BadFraming(framed.error));
    }
    var magic :- EncodedMagic(frame.magic, framed.value != []);
    if |frame.extras| > U8_MAX {
      return Err(ExtrasTooLong);
    }
    var key := new BytesMut([]);
    if Prefixes(codec, frame.opcode) {
      Uleb128.EncodeUleb(UnwrapOr(frame.collectionId, 0), key);
    } else if frame.collectionId.Some? && frame.collectionId.value != 0 {
      return Err(CollectionNotEncodable);
    }
    key.Put(frame.key);
    assert key.data == KeyBytes(codec, frame).value;
    r := Ok(Packet(magic, framed.value, key.data, frame));
  }

  /** Appends the encoded frame, or fails and leaves the destination as it was. */
  method Encode(codec: Codec, frame: Frame, destination: BytesMut) returns (r: Result<(), CodecError>)
    modifies destination
    ensures match EncodeFrame(codec, frame)
            case Ok(bytes) => r == Ok(()) && destination.data == old(destination.data) + bytes
            case Err(error) => r == Err(error) && destination.data == old(destination.data)
  {
    var packet :- PreparePacket(codec, frame);
    if LengthError(packet).Some? {
      return Err(LengthError(packet).value);
    }
    var bodyLength := |packet.framing| + |frame.extras| + |packet.key| + |frame.value|;
    if HEADER_LEN + bodyLength > codec.maxFrameSize {
      return Err(FrameTooLarge);
    }
    if bodyLength > U32_MAX {
      return Err(BodyTooLong);
    }
    WritePacket(packet, destination);
    r := Ok(());
  }

  method WritePacket(packet: Packet, destination: BytesMut)
    requires packet.LengthsFit()
    modifies destination
    ensures destination.data == old(destination.data) + packet.Encoded()
  {
    WriteHeader(packet.Head(), destination);
    Regroup(destination.data, packet.framing, packet.frame.extras, packet.key, packet.frame.value);
    Regroup(old(destination.data), packet.Head().Encoded(), packet.Body(), [], []);
    destination.Put(packet.framing);
    destination.Put(packet.frame.extras);
    destination.Put(packet.key);
    destination.Put(packet.frame.value);
  }

  lemma {:induction false} Regroup(w: seq<u8>, a: seq<u8>, b: seq<u8>, c: seq<u8>, d: seq<u8>)
    ensures w + a + b + c + d == w + (a + b + c + d)
    ensures w + a + b == w + (a + b)
  {
  }

  method WriteHeader(h: Header, destination: BytesMut)
    requires h.Fits()
    modifies destination
    ensures destination.data == old(destination.data) + h.Encoded()
  {
    Regroup(destination.data, [h.magic.Byte(), h.opcode], h.Lengths(), [h.extrasLength, h.datatypeByte],
            PutU16(h.statusOrVBucket));
    Regroup(destination.data, h.Front(), PutU32(h.bodyLength), PutU32(h.token), PutU64(h.cas));
    destination.Put([h.magic.Byte(), h.opcode]);
    if h.magic.IsAlt() {
      destination.Put([h.framingLength, h.keyLength]);
    } else {
      destination.Put(PutU16(h.keyLength));
    }
    destination.Put([h.extrasLength, h.datatypeByte]);
    destination.Put(PutU16(h.statusOrVBucket));
    assert destination.data == old(destination.data) + h.Front();
    destination.Put(PutU32(h.bodyLength));
    destination.Put(PutU32(h.token));
    destination.Put(PutU64(h.cas));
  }

  // ---------------------------------------------------------------- decoding

  datatype Keyed = Keyed(collectionId: Option<u32>, key: seq<u8>)

  function SplitKey(codec: Codec, opcode: u8, key: seq<u8>): Result<Keyed, CodecError> {
    if !Prefixes(codec, opcode) || key == [] then Ok(Keyed(None, key))
    else
      match Uleb128.Decode(key)
      case Err(reason) => Err(BadCollection(reason))
      case Ok(d) => UlebConsumes(key); Ok(Keyed(Some(d.value), key[d.consumed..]))
  }

  lemma {:induction false} UlebConsumes(key: seq<u8>)
    requires Uleb128.Decode(key).Ok?
    ensures Uleb128.Decode(key).value.consumed <= |key|
  {
    Uleb128.DecodeAccepts(key, 0);
  }

  /** One whole packet whose magic is known. */
  function Parse(codec: Codec, h: Header, body: seq<u8>): Result<Frame, CodecError> {
    var keyStart := h.framingLength + h.extrasLength as nat;
    var valueStart := keyStart + h.keyLength;
    if valueStart > |body| then Err(FieldsExceedBody)
    else
      var framing := DecodeExtras(body[..h.framingLength]);
      if framing.Err? then Err(BadFraming(framing.error))
      else
        var keyed :- SplitKey(codec, h.opcode, body[keyStart..valueStart]);
        Ok(Assembled(h, framing.value, body[h.framingLength..keyStart], keyed, body[valueStart..], |body|))
  }

  function Assembled(h: Header, framing: seq<FramingExtra>, extras: seq<u8>, keyed: Keyed, value: seq<u8>,
                     bodyLength: nat): Frame
  {
    Frame(h.magic, h.opcode, h.datatypeByte,
          if h.magic.IsRequest() then h.statusOrVBucket else 0,
          if h.magic.IsResponse() then h.statusOrVBucket else 0,
          h.token, h.cas, framing, extras, keyed.key, value, keyed.collectionId, Some(HEADER_LEN + bodyLength))
  }

  /** What one attempt to decode makes of the buffered bytes, and which it leaves there. */
  datatype Attempt =
    | Incomplete
    | Failed(error: CodecError, left: seq<u8>)
    | Item(frame: Frame, left: seq<u8>)

  function DecodeFrame(codec: Codec, source: seq<u8>): (r: Attempt)
    ensures r.Item? ==> |r.left| < |source|
  {
    if |source| < HEADER_LEN then Incomplete
    else if MagicFrom(source[0]).None? then Failed(InvalidMagic, source)
    else
      var total := HEADER_LEN + BodyLength(source);
      if total > codec.maxFrameSize then Failed(FrameTooLarge, source)
      else if |source| < total then Incomplete
      else
        match Parse(codec, ReadHeader(MagicFrom(source[0]).value, source), source[HEADER_LEN..total])
        case Err(error) => Failed(error, source[total..])
        case Ok(frame) => Item(frame, source[total..])
  }

  method Decode(codec: Codec, source: BytesMut) returns (r: Result<Option<Frame>, CodecError>)
    modifies source
    ensures match DecodeFrame(codec, old(source.data))
            case Incomplete => r == Ok(None) && source.data == old(source.data)
            case Failed(error, left) => r == Err(error) && source.data == left
            case Item(frame, left) => r == Ok(Some(frame)) && source.data == left
  {
    if |source.data| < HEADER_LEN {
      return Ok(None);
    }
    var magic := MagicFrom(source.data[0]);
    if magic.None? {
      return Err(InvalidMagic);
    }
    var total := HEADER_LEN + BodyLength(source.data);
    if total > codec.maxFrameSize {
      return Err(FrameTooLarge);
    }
    if |source.data| < total {
      return Ok(None);
    }
    var packet := source.SplitTo(total);
    var h := ReadHeader(magic.value, packet);
    HeaderIsLocal(magic.value, old(source.data), total);
    var body := packet[HEADER_LEN..];
    assert body == old(source.data)[HEADER_LEN..total];
    r := ParsePacket(codec, h, body);
  }

  lemma {:induction false} HeaderIsLocal(magic: Magic, source: seq<u8>, total: nat)
    requires HEADER_LEN <= total <= |source|
    ensures ReadHeader(magic, source[..total]) == ReadHeader(magic, source)
  {
    var packet := source[..total];
    assert packet[2..4] == source[2..4] && packet[6..8] == source[6..8] && packet[8..12] == source[8..12];
    assert packet[12..16] == source[12..16] && packet[16..24] == source[16..24];
  }

  method ParsePacket(codec: Codec, h: Header, body: seq<u8>) returns (r: Result<Option<Frame>, CodecError>)
    ensures match Parse(codec, h, body)
            case Err(error) => r == Err(error)
            case Ok(frame) => r == Ok(Some(frame))
  {
    var keyStart := h.framingLength + h.extrasLength as nat;
    var valueStart := keyStart + h.keyLength;
    if valueStart > |body| {
      return Err(FieldsExceedBody);
    }
    var framing := DecodeFramingExtras(body[..h.framingLength]);
    if framing.Err? {
      return Err(BadFraming(framing.error));
    }
    var keyed :- ReadKey(codec, h.opcode, body[keyStart..valueStart]);
    r := Ok(Some(Assembled(h, framing.value, body[h.framingLength..keyStart], keyed, body[valueStart..], |body|)));
  }

  method ReadKey(codec: Codec, opcode: u8, bytes: seq<u8>) returns (r: Result<Keyed, CodecError>)
    ensures r == SplitKey(codec, opcode, bytes)
  {
    var key := bytes;
    var collectionId: Option<u32> := None;
    if Prefixes(codec, opcode) && key != [] {
      var decoded := Uleb128.DecodeUleb(key);
      if decoded.Err? {
        return Err(BadCollection(decoded.error));
      }
      UlebConsumes(key);
      key := key[decoded.value.consumed..];
      collectionId := Some(decoded.value.value);
    }
    r := Ok(Keyed(collectionId, key));
  }

  // ---------------------------------------------------------------- round trip

  /**
   * The frame a decoder hands out for `frame`: framing extras make the magic flexible, a collection
   * id is always present where keys carry one and absent elsewhere, and the wire size is recorded.
   */
  function Normalised(codec: Codec, frame: Frame, wireSize: nat): Frame {
    var magic :=
      if frame.framing == [] then frame.magic
      else if frame.magic.IsResponse() then AltResponse
      else AltRequest;
    var collectionId :=
      if Prefixes(codec, frame.opcode) then Some(UnwrapOr(frame.collectionId, 0)) else None;
    frame.(magic := magic, collectionId := collectionId, receivedWireSize := Some(wireSize))
  }

  lemma {:induction false} KeyRoundTrip(codec: Codec, frame: Frame)
    requires KeyBytes(codec, frame).Ok?
    ensures SplitKey(codec, frame.opcode, KeyBytes(codec, frame).value) ==
            Ok(Keyed(if Prefixes(codec, frame.opcode) then Some(UnwrapOr(frame.collectionId, 0)) else None, frame.key))
  {
    if Prefixes(codec, frame.opcode) {
      var id := UnwrapOr(frame.collectionId, 0);
      Uleb128.UlebRoundTrip(id, frame.key);
      assert (Uleb128.Encoded(id) + frame.key)[|Uleb128.Encoded(id)|..] == frame.key;
    }
  }

  lemma {:induction false} BodyLayout(a: seq<u8>, b: seq<u8>, c: seq<u8>, d: seq<u8>)
    ensures var s := a + b + c + d;
            && s[..|a|] == a
            && s[|a|..|a| + |b|] == b
            && s[|a| + |b|..|a| + |b| + |c|] == c
            && s[|a| + |b| + |c|..] == d
  {
  }

  predicate Sound(codec: Codec, packet: Packet) {
    && packet.LengthsFit() && LengthError(packet).None?
    && Prepare(codec, packet.frame) == Ok(packet)
  }

  lemma {:induction false} MagicIsNormal(codec: Codec, packet: Packet)
    requires Sound(codec, packet)
    ensures packet.magic == Normalised(codec, packet.frame, 0).magic
    ensures packet.magic.IsResponse() == packet.frame.magic.IsResponse()
    ensures if packet.magic.IsResponse() then packet.frame.vbucket == 0 else packet.frame.status == 0
  {
  }

  lemma {:induction false} PiecesRoundTrip(codec: Codec, packet: Packet)
    requires Sound(codec, packet)
    ensures DecodeExtras(packet.framing) == Ok(packet.frame.framing)
    ensures SplitKey(codec, packet.frame.opcode, packet.key) ==
            Ok(Keyed(Normalised(codec, packet.frame, 0).collectionId, packet.frame.key))
  {
    FramingRoundTrip(packet.frame.framing);
    KeyRoundTrip(codec, packet.frame);
  }

  lemma {:induction false} ParsePieces(codec: Codec, h: Header, a: seq<u8>, b: seq<u8>, c: seq<u8>, d: seq<u8>)
    requires h.framingLength == |a| && h.extrasLength == |b| && h.keyLength == |c|
    requires DecodeExtras(a).Ok? && SplitKey(codec, h.opcode, c).Ok?
    ensures Parse(codec, h, a + b + c + d) ==
            Ok(Assembled(h, DecodeExtras(a).value, b, SplitKey(codec, h.opcode, c).value, d, |a + b + c + d|))
  {
    BodyLayout(a, b, c, d);
  }

  lemma {:induction false} AssembledIsNormal(codec: Codec, h: Header, frame: Frame, bodyLength: nat)
    requires h.magic == Normalised(codec, frame, 0).magic && h.opcode == frame.opcode
    requires h.datatypeByte == frame.datatypeByte && h.token == frame.token && h.cas == frame.cas
    requires h.magic.IsResponse() ==> h.statusOrVBucket == frame.status && frame.vbucket == 0
    requires !h.magic.IsResponse() ==> h.statusOrVBucket == frame.vbucket && frame.status == 0
    ensures var keyed := Keyed(Normalised(codec, frame, 0).collectionId, frame.key);
            Assembled(h, frame.framing, frame.extras, keyed, frame.value, bodyLength) ==
            Normalised(codec, frame, HEADER_LEN + bodyLength)
  {
  }

  lemma {:induction false} ParseRoundTrip(codec: Codec, packet: Packet)
    requires Sound(codec, packet)
    ensures Parse(codec, packet.Head(), packet.Body()) ==
            Ok(Normalised(codec, packet.frame, HEADER_LEN + |packet.Body()|))
  {
    var h := packet.Head();
    ParsePieces(codec, h, packet.framing, packet.frame.extras, packet.key, packet.frame.value) by {
      PiecesRoundTrip(codec, packet);
    }
    assert Parse(codec, h, packet.Body()) ==
           Ok(Assembled(h, packet.frame.framing, packet.frame.extras,
                        Keyed(Normalised(codec, packet.frame, 0).collectionId, packet.frame.key),
                        packet.frame.value, |packet.Body()|)) by {
      PiecesRoundTrip(codec, packet);
    }
    MagicIsNormal(codec, packet);
    AssembledIsNormal(codec, h, packet.frame, |packet.Body()|);
  }

  /** A buffered packet with a header that fits is parsed, and only it is taken from the buffer. */
  lemma {:induction false} DecodesPacket(codec: Codec, h: Header, body: seq<u8>, later: seq<u8>)
    requires h.Fits() && h.bodyLength == |body| && HEADER_LEN + |body| <= codec.maxFrameSize
    requires Parse(codec, h, body).Ok?
    ensures DecodeFrame(codec, h.Encoded() + body + later) == Item(Parse(codec, h, body).value, later)
  {
    var source := h.Encoded() + body + later;
    assert source == h.Encoded() + (body + later);
    HeaderRoundTrip(h, body + later);
    var total := HEADER_LEN + |body|;
    assert source[HEADER_LEN..total] == body && source[total..] == later;
  }

  lemma {:induction false} EncodedPacket(codec: Codec, frame: Frame) returns (packet: Packet)
    requires EncodeFrame(codec, frame).Ok?
    ensures packet.frame == frame && Sound(codec, packet)
    ensures EncodeFrame(codec, frame).value == packet.Encoded()
  {
    packet := Prepare(codec, frame).value;
  }

  /** One encoded frame decodes to its normal form and leaves every later byte in the buffer. */
  lemma {:induction false} FrameRoundTrip(codec: Codec, frame: Frame, later: seq<u8>)
    requires EncodeFrame(codec, frame).Ok?
    ensures var bytes := EncodeFrame(codec, frame).value;
            DecodeFrame(codec, bytes + later) == Item(Normalised(codec, frame, |bytes|), later)
  {
    var packet := EncodedPacket(codec, frame);
    ParseRoundTrip(codec, packet);
    DecodesPacket(codec, packet.Head(), packet.Body(), later);
  }

  /** Any strict prefix of an encoded frame is held back whole. */
  lemma {:induction false} PrefixIsHeldBack(codec: Codec, frame: Frame, prefix: seq<u8>)
    requires EncodeFrame(codec, frame).Ok? && prefix < EncodeFrame(codec, frame).value
    ensures DecodeFrame(codec, prefix) == Incomplete
  {
    if |prefix| >= HEADER_LEN {
      var packet := EncodedPacket(codec, frame);
      var bytes := packet.Encoded();
      HeaderRoundTrip(packet.Head(), packet.Body());
      assert prefix[8..12] == bytes[8..12] && prefix[0] == bytes[0];
    }
  }
}
