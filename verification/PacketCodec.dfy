/**
 The msgtrans wire format, protocol version 1: a 16-byte big-endian header, the ext header, the payload.
 */
module PacketCodec {
  import opened Bytes
  import opened Streaming
  import opened Wrappers
  import opened Packets

  const DEFAULT_MAX_PAYLOAD := 64 * 1024 * 1024

  /** The header `Encode` writes; each length is cut to the width of its field. */
  function EncodeHeader(p: Packet): seq<byte> {
    [PROTOCOL_VERSION, CompressionCode(p.compression), TypeCode(p.kind), p.bizType]
    + U32(p.messageId) + U16(|p.extHeader|) + U32(|p.payload|) + U16(p.reserved)
  }

  function Encode(p: Packet): seq<byte> {
    EncodeHeader(p) + p.extHeader + p.payload
  }

  /** The announced length of the packet whose header starts `b`. */
  function Announced(b: seq<byte>): nat
    requires |b| >= FIXED_HEADER_SIZE
  {
    FIXED_HEADER_SIZE + GetU16(b, 8) + GetU32(b, 10)
  }

  /** The error the header alone raises, in the order the decoder checks. */
  function HeaderError(max: int, b: seq<byte>): Option<ProtocolError>
    requires |b| >= FIXED_HEADER_SIZE
  {
    if b[0] != PROTOCOL_VERSION then Some(UnsupportedVersion(b[0]))
    else if CompressionFromCode(b[1]).None? then Some(UnknownCompression(b[1]))
    else if TypeFromCode(b[2]).None? then Some(UnknownPacketType(b[2]))
    else if GetU32(b, 10) > max then Some(PayloadTooLong(GetU32(b, 10), max))
    else None
  }

  function Decode(max: int, b: seq<byte>): Verdict<Packet> {
    if |b| < FIXED_HEADER_SIZE then NeedMore
    else if HeaderError(max, b).Some? then Malformed(HeaderError(max, b).value)
    else if |b| < Announced(b) then NeedMore
    else
      var ext := FIXED_HEADER_SIZE + GetU16(b, 8);
      var total := Announced(b);
      Decoded(
        Packet(TypeFromCode(b[2]).value, GetU32(b, 4), b[3], b[ext..total], b[FIXED_HEADER_SIZE..ext],
               CompressionFromCode(b[1]).value, GetU16(b, 14)),
        b[total..])
  }

  /** The decoder of a codec instance with payload limit `max`. */
  function Plain(max: int): Decoder<Packet> {
    (b: seq<byte>) => Decode(max, b)
  }

  /** `b` starts with the header fields of `p`, laid out as the wire specification's table says. */
  ghost predicate HeaderIs(b: seq<byte>, p: Packet) {
    && |b| >= FIXED_HEADER_SIZE
    && b[0] == 1
    && b[1] == CompressionCode(p.compression)
    && b[2] == TypeCode(p.kind)
    && b[3] == p.bizType
    && GetU32(b, 4) == p.messageId
    && GetU16(b, 8) == |p.extHeader| % 0x1_0000
    && GetU32(b, 10) == |p.payload| % 0x1_0000_0000
    && GetU16(b, 14) == p.reserved
  }

  /** `b` is laid out as `p` followed by `rest`: every field at its offset, then the ext header, then the payload. */
  ghost predicate LaidOut(b: seq<byte>, p: Packet, rest: seq<byte>) {
    && HeaderIs(b, p)
    && |b| == Size(p) + |rest|
    && b[FIXED_HEADER_SIZE..FIXED_HEADER_SIZE + |p.extHeader|] == p.extHeader
    && b[FIXED_HEADER_SIZE + |p.extHeader|..Size(p)] == p.payload
    && b[Size(p)..] == rest
  }

  lemma EncodeLayout(p: Packet, rest: seq<byte>)
    ensures LaidOut(Encode(p) + rest, p, rest)
    ensures |Encode(p)| == Size(p)
  {
    var f0 := [PROTOCOL_VERSION, CompressionCode(p.compression), TypeCode(p.kind), p.bizType];
    LayoutOfParts(p, f0, U32(p.messageId), U16(|p.extHeader|), U32(|p.payload|), U16(p.reserved), rest);
    HeaderFields(p);
    HeaderFrom(Encode(p) + rest, p, U32(p.messageId), U16(|p.extHeader|), U32(|p.payload|), U16(p.reserved));
  }

  lemma HeaderFields(p: Packet)
    ensures FromBigEndian(U32(p.messageId)) == p.messageId && FromBigEndian(U16(p.reserved)) == p.reserved
    ensures FromBigEndian(U16(|p.extHeader|)) == |p.extHeader| % 0x1_0000
    ensures FromBigEndian(U32(|p.payload|)) == |p.payload| % 0x1_0000_0000
  {
    FieldsKeepLowBits(p.messageId);
    FieldsKeepLowBits(|p.extHeader|);
    FieldsKeepLowBits(|p.payload|);
    FieldsKeepLowBits(p.reserved);
  }

  /** A header is `p`'s once its fields spell `p`'s numbers. */
  lemma HeaderFrom(b: seq<byte>, p: Packet, f4: seq<byte>, f8: seq<byte>, f10: seq<byte>, f14: seq<byte>)
    requires |b| >= FIXED_HEADER_SIZE
    requires b[..4] == [PROTOCOL_VERSION, CompressionCode(p.compression), TypeCode(p.kind), p.bizType]
    requires b[4..8] == f4 && b[8..10] == f8 && b[10..14] == f10 && b[14..16] == f14
    requires FromBigEndian(f4) == p.messageId && FromBigEndian(f14) == p.reserved
    requires FromBigEndian(f8) == |p.extHeader| % 0x1_0000 && FromBigEndian(f10) == |p.payload| % 0x1_0000_0000
    ensures HeaderIs(b, p)
  {
    assert b[0] == b[..4][0] && b[1] == b[..4][1] && b[2] == b[..4][2] && b[3] == b[..4][3];
  }

  /** Where the parts of an encoding land, whatever the header fields hold. */
  lemma LayoutOfParts(p: Packet, f0: seq<byte>, f4: seq<byte>, f8: seq<byte>, f10: seq<byte>, f14: seq<byte>, rest: seq<byte>)
    requires |f0| == |f4| == |f10| == 4 && |f8| == |f14| == 2
    ensures var h := f0 + f4 + f8 + f10 + f14;
            var b := h + p.extHeader + p.payload + rest;
            && |h| == FIXED_HEADER_SIZE && |b| == Size(p) + |rest|
            && b[..4] == f0 && b[4..8] == f4 && b[8..10] == f8 && b[10..14] == f10 && b[14..16] == f14
            && b[FIXED_HEADER_SIZE..FIXED_HEADER_SIZE + |p.extHeader|] == p.extHeader
            && b[FIXED_HEADER_SIZE + |p.extHeader|..Size(p)] == p.payload
            && b[Size(p)..] == rest
  {
  }

  /** The first eight bytes of an encoding: version, compression, type, business type, message id. */
  lemma LeadingBytes(p: Packet, rest: seq<byte>)
    ensures var b := Encode(p) + rest;
            && |b| >= 16 && b[0] == 1
            && b[1] == (match p.compression case NoCompression => 0 case Zstd => 1 case Zlib => 2)
            && b[2] == (match p.kind case OneWay => 0 case Request => 1 case Response => 2)
            && b[3] == p.bizType
            && p.messageId == b[4] as int * 0x100_0000 + b[5] as int * 0x1_0000 + b[6] as int * 0x100 + b[7]
  {
    EncodeLayout(p, rest);
    Spelled((Encode(p) + rest)[4..8]);
  }

  /** A full header is refused for the first of its fields that is wrong, in the order of the checks. */
  lemma RefusesFirstFault(max: int, b: seq<byte>)
    requires |b| >= 16
    ensures var n := b[10] as int * 0x100_0000 + b[11] as int * 0x1_0000 + b[12] as int * 0x100 + b[13];
            if b[0] != 1 then Decode(max, b) == Malformed(UnsupportedVersion(b[0]))
            else if b[1] > 2 then Decode(max, b) == Malformed(UnknownCompression(b[1]))
            else if b[2] > 2 then Decode(max, b) == Malformed(UnknownPacketType(b[2]))
            else if n > max then Decode(max, b) == Malformed(PayloadTooLong(n, max))
            else !Decode(max, b).Malformed?
  {
    Spelled(b[10..14]);
  }

  lemma AnnouncedOfEncode(p: Packet, rest: seq<byte>)
    requires |p.payload| <= 0xFFFF_FFFF
    ensures |Encode(p)| == Size(p)
    ensures Announced(Encode(p) + rest) == FIXED_HEADER_SIZE + |p.extHeader| % 0x1_0000 + |p.payload|
  {
    EncodeLayout(p, rest);
  }

  lemma DecodeLaidOut(max: int, b: seq<byte>, p: Packet, rest: seq<byte>)
    requires LaidOut(b, p, rest) && WithinLimits(p, max)
    ensures Decode(max, b) == Decoded(p, rest)
  {
    assert Announced(b) == Size(p);
  }

  /** Decoding an encoding gives back the packet and leaves what follows it. */
  lemma DecodeOfEncode(max: int, p: Packet, rest: seq<byte>)
    requires WithinLimits(p, max)
    ensures Decode(max, Encode(p) + rest) == Decoded(p, rest)
  {
    EncodeLayout(p, rest);
    DecodeLaidOut(max, Encode(p) + rest, p, rest);
  }

  /** Writing the fields a header holds gives the header back. */
  lemma U16Back(b: seq<byte>, at: nat)
    requires at + 2 <= |b|
    ensures U16(GetU16(b, at)) == b[at..at + 2]
  {
    GetThenWrite(b[at..at + 2]);
  }

  lemma U32Back(b: seq<byte>, at: nat)
    requires at + 4 <= |b|
    ensures U32(GetU32(b, at)) == b[at..at + 4]
  {
    GetThenWrite(b[at..at + 4]);
  }

  lemma FirstFieldBack(b: seq<byte>, p: Packet)
    requires HeaderIs(b, p)
    ensures [PROTOCOL_VERSION, CompressionCode(p.compression), TypeCode(p.kind), p.bizType] == b[..4]
  {
  }

  lemma ExtHeaderLengthBack(b: seq<byte>, p: Packet)
    requires HeaderIs(b, p) && |p.extHeader| <= 0xFFFF
    ensures U16(|p.extHeader|) == b[8..10]
  {
    U16Back(b, 8);
  }

  lemma PayloadLengthBack(b: seq<byte>, p: Packet)
    requires HeaderIs(b, p) && |p.payload| <= 0xFFFF_FFFF
    ensures U32(|p.payload|) == b[10..14]
  {
    U32Back(b, 10);
  }

  lemma IdAndFlagsBack(b: seq<byte>, p: Packet)
    requires HeaderIs(b, p)
    ensures U32(p.messageId) == b[4..8] && U16(p.reserved) == b[14..16]
  {
    U32Back(b, 4);
    U16Back(b, 14);
  }

  lemma HeaderWritesBack(b: seq<byte>, p: Packet)
    requires HeaderIs(b, p) && |p.extHeader| <= 0xFFFF && |p.payload| <= 0xFFFF_FFFF
    ensures EncodeHeader(p) == b[..16]
  {
    FirstFieldBack(b, p);
    ExtHeaderLengthBack(b, p);
    PayloadLengthBack(b, p);
    IdAndFlagsBack(b, p);
    JoinHeader(b, b[..4], b[4..8], b[8..10], b[10..14], b[14..16]);
  }

  lemma JoinHeader(b: seq<byte>, f0: seq<byte>, f4: seq<byte>, f8: seq<byte>, f10: seq<byte>, f14: seq<byte>)
    requires |b| >= FIXED_HEADER_SIZE
    requires f0 == b[..4] && f4 == b[4..8] && f8 == b[8..10] && f10 == b[10..14] && f14 == b[14..16]
    ensures f0 + f4 + f8 + f10 + f14 == b[..16]
  {
  }

  lemma SplitThree(b: seq<byte>, i: nat, j: nat, k: nat)
    requires i <= j <= k <= |b|
    ensures b == b[..i] + b[i..j] + b[j..k] + b[k..]
  {
  }

  /** Re-encoding a decoded packet gives exactly the bytes consumed. */
  lemma EncodeOfDecode(max: int, b: seq<byte>)
    requires Decode(max, b).Decoded?
    ensures WithinLimits(Decode(max, b).item, max)
    ensures b == Encode(Decode(max, b).item) + Decode(max, b).rest
  {
    HeaderWritesBack(b, Decode(max, b).item);
    SplitThree(b, FIXED_HEADER_SIZE, FIXED_HEADER_SIZE + GetU16(b, 8), Announced(b));
  }

  /** The decoder accepts exactly the encodings of packets within limits: a uniquely parsable prefix code. */
  lemma DecodesIffEncoded(max: int, b: seq<byte>, p: Packet, rest: seq<byte>)
    ensures Decode(max, b) == Decoded(p, rest) <==> WithinLimits(p, max) && b == Encode(p) + rest
  {
    if Decode(max, b) == Decoded(p, rest) { EncodeOfDecode(max, b); }
    if WithinLimits(p, max) && b == Encode(p) + rest { DecodeOfEncode(max, p, rest); }
  }

  /**
   Which packets survive the wire. `encode` checks no length and writes the low 16 bits of the ext
   header's, so a longer ext header is read back as something else; such a packet never round-trips.
   */
  lemma RoundTripsIffWithinLimits(max: int, p: Packet, rest: seq<byte>)
    requires ArraySized(p)
    ensures Decode(max, Encode(p) + rest) == Decoded(p, rest)
            <==> |p.extHeader| <= 0xFFFF && |p.payload| <= max
  {
    DecodesIffEncoded(max, Encode(p) + rest, p, rest);
  }

  /** A 65536-byte ext header announces a length of zero: its bytes are read as the next packet's. */
  lemma OversizedExtHeaderIsMisread(p: Packet)
    requires |p.extHeader| == 0x1_0000 && p.payload == []
    ensures Decode(DEFAULT_MAX_PAYLOAD, Encode(p)) == Decoded(p.(extHeader := []), p.extHeader)
  {
    EncodeLayout(p, []);
    var b := Encode(p);
    assert b + [] == b;
    assert Announced(b) == 16;
    assert b[16..16] == [] && b[16..] == p.extHeader;
  }

  /** More bytes never change a verdict once there is one, and every packet takes at least its header. */
  lemma PlainIsIncremental(max: int)
    ensures Incremental(Plain(max))
  {
    forall b: seq<byte>, more: seq<byte>
      ensures Decode(max, b).Malformed? ==> Decode(max, b + more) == Decode(max, b)
      ensures Decode(max, b).Decoded? ==> Decode(max, b + more) == Decoded(Decode(max, b).item, Decode(max, b).rest + more)
    {
      DecodeSettles(max, b, more);
    }
  }

  /** More bytes change no header field. */
  lemma SameHeader(b: seq<byte>, more: seq<byte>)
    requires |b| >= FIXED_HEADER_SIZE
    ensures forall i | 0 <= i < FIXED_HEADER_SIZE :: (b + more)[i] == b[i]
    ensures GetU32(b + more, 4) == GetU32(b, 4) && GetU16(b + more, 8) == GetU16(b, 8)
    ensures GetU32(b + more, 10) == GetU32(b, 10) && GetU16(b + more, 14) == GetU16(b, 14)
  {
    assert (b + more)[4..8] == b[4..8] && (b + more)[8..10] == b[8..10];
    assert (b + more)[10..14] == b[10..14] && (b + more)[14..16] == b[14..16];
  }

  lemma DecodeSettles(max: int, b: seq<byte>, more: seq<byte>)
    ensures Decode(max, b).Malformed? ==> Decode(max, b + more) == Decode(max, b)
    ensures Decode(max, b).Decoded? ==> Decode(max, b + more) == Decoded(Decode(max, b).item, Decode(max, b).rest + more)
  {
    if |b| >= FIXED_HEADER_SIZE {
      SameHeader(b, more);
      var e, total := FIXED_HEADER_SIZE + GetU16(b, 8), Announced(b);
      if |b| >= total {
        assert (b + more)[16..e] == b[16..e] && (b + more)[e..total] == b[e..total];
        assert (b + more)[total..] == b[total..] + more;
      }
    }
  }

  /** With a whole header at hand the decoder refuses exactly the streams no continuation could make a packet. */
  lemma MalformedIffHopeless(max: int, b: seq<byte>)
    requires |b| >= FIXED_HEADER_SIZE
    ensures Decode(max, b).Malformed? <==> forall more :: !Decode(max, b + more).Decoded?
  {
    forall more ensures Decode(max, b).Malformed? ==> Decode(max, b + more) == Decode(max, b) {
      DecodeSettles(max, b, more);
    }
    if !Decode(max, b).Malformed? {
      var pad: seq<byte> := seq(Announced(b), _ => 0);
      SameHeader(b, pad);
      assert Decode(max, b + pad).Decoded?;
    }
  }

  /** A connection's stream of packets within limits is read back item by item. */
  lemma PlainReadsBack(max: int, ps: seq<Packet>)
    requires forall p | p in ps :: WithinLimits(p, max)
    ensures ReadsBack(Plain(max), Encode, ps)
  {
    forall p, rest | p in ps ensures Plain(max)(Encode(p) + rest) == Decoded(p, rest) {
      DecodeOfEncode(max, p, rest);
    }
  }

  /** `encode`: appends the header field by field, then the two variable parts when there are any. */
  lemma AppendParts(was: seq<byte>, v: byte, c: byte, t: byte, z: byte, f4: seq<byte>, f8: seq<byte>, f10: seq<byte>, f14: seq<byte>)
    ensures was + [v] + [c] + [t] + [z] + f4 + f8 + f10 + f14 == was + ([v, c, t, z] + f4 + f8 + f10 + f14)
  {
  }

  lemma AppendHeader(was: seq<byte>, p: Packet)
    ensures was + [PROTOCOL_VERSION] + [CompressionCode(p.compression)] + [TypeCode(p.kind)] + [p.bizType]
            + U32(p.messageId) + U16(|p.extHeader|) + U32(|p.payload|) + U16(p.reserved) == was + EncodeHeader(p)
  {
    AppendParts(was, PROTOCOL_VERSION, CompressionCode(p.compression), TypeCode(p.kind), p.bizType,
                U32(p.messageId), U16(|p.extHeader|), U32(|p.payload|), U16(p.reserved));
  }

  method EncodeInto(p: Packet, out: Buffer)
    modifies out
    ensures out.readable == old(out.readable) + Encode(p)
  {
    AppendHeader(out.readable, p);
    out.WriteByte(PROTOCOL_VERSION);
    out.WriteByte(CompressionCode(p.compression));
    out.WriteByte(TypeCode(p.kind));
    out.WriteByte(p.bizType);
    out.WriteInt(p.messageId);
    out.WriteShort(|p.extHeader|);
    out.WriteInt(|p.payload|);
    out.WriteShort(p.reserved);
    assert out.readable == old(out.readable) + EncodeHeader(p);
    if p.extHeader != [] {
      out.WriteBytes(p.extHeader);
    }
    if p.payload != [] {
      out.WriteBytes(p.payload);
    }
  }

  /** `decode`: the buffer moves past the packet it returns and is untouched otherwise. */
  method DecodeFrom(max: int, buf: Buffer) returns (v: Verdict<Packet>)
    modifies buf
    ensures v == Decode(max, old(buf.readable))
    ensures buf.readable == if v.Decoded? then v.rest else old(buf.readable)
  {
    var b := buf.readable;
    if |b| < FIXED_HEADER_SIZE {
      return NeedMore;
    }
    if HeaderError(max, b).Some? {
      return Malformed(HeaderError(max, b).value);
    }
    var extLen: int, payloadLen: int := GetU16(b, 8), GetU32(b, 10);
    if |b| < FIXED_HEADER_SIZE + extLen + payloadLen {
      return NeedMore;
    }
    var _ := buf.ReadBytes(FIXED_HEADER_SIZE);
    var ext := [];
    if extLen > 0 {
      ext := buf.ReadBytes(extLen);
    }
    var payload := [];
    if payloadLen > 0 {
      payload := buf.ReadBytes(payloadLen);
    }
    assert ext == b[16..16 + extLen] && payload == b[16 + extLen..16 + extLen + payloadLen];
    assert buf.readable == b[16 + extLen + payloadLen..];
    v := Decoded(
      Packet(TypeFromCode(b[2]).value, GetU32(b, 4), b[3], payload, ext, CompressionFromCode(b[1]).value, GetU16(b, 14)),
      buf.readable);
  }
}
