/**
 The framing of a QUIC stream: each packet preceded by its length as a big-endian u32.
 */
module LengthPrefixedCodec {
  import opened Bytes
  import opened Streaming
  import opened Wrappers
  import opened Packets
  import PacketCodec

  const PREFIX := 4

  function Encode(p: Packet): seq<byte> {
    U32(Size(p)) + PacketCodec.Encode(p)
  }

  /** The longest frame a packet with payload limit `max` can need. */
  function MaxFrameLength(max: int): int {
    FIXED_HEADER_SIZE + 0xFFFF + max
  }

  function Decode(max: int, b: seq<byte>): Verdict<Packet> {
    if |b| < PREFIX then NeedMore
    else
      var length := GetU32(b, 0);
      if length > MaxFrameLength(max) then Malformed(FrameTooLong(length, MaxFrameLength(max)))
      else if |b| - PREFIX < length then NeedMore
      else if length < FIXED_HEADER_SIZE then Malformed(FrameTooShort(length))
      else
        var frame := b[PREFIX..];
        if PacketCodec.Announced(frame) != length then
          Malformed(FrameMismatch(length, PacketCodec.Announced(frame)))
        else
          match PacketCodec.Decode(max, frame)
          case NeedMore => Malformed(IncompleteFrame)
          case v => v
  }

  function Prefixed(max: int): Decoder<Packet> {
    assert Progresses((b: seq<byte>) => Decode(max, b));
    (b: seq<byte>) => Decode(max, b)
  }

  /** Once a frame is buffered whole, the packet inside it is too: the last check of `decode` never fires. */
  lemma IncompleteFrameUnreachable(max: int, b: seq<byte>)
    ensures Decode(max, b) != Malformed(IncompleteFrame)
  {
    if |b| >= PREFIX && |b| - PREFIX >= GetU32(b, 0) >= FIXED_HEADER_SIZE {
      var frame := b[PREFIX..];
      if PacketCodec.Announced(frame) == GetU32(b, 0) {
        assert !PacketCodec.Decode(max, frame).NeedMore?;
      }
    }
  }

  /** A frame accepted with its prefix is a packet accepted without it, and the same one. */
  lemma RefinesPlain(max: int, b: seq<byte>)
    requires Decode(max, b).Decoded?
    ensures PacketCodec.Decode(max, b[PREFIX..]) == Decode(max, b)
    ensures b == Encode(Decode(max, b).item) + Decode(max, b).rest
    ensures GetU32(b, 0) == Size(Decode(max, b).item)
  {
    var frame, p, rest := b[PREFIX..], Decode(max, b).item, Decode(max, b).rest;
    PacketCodec.EncodeOfDecode(max, frame);
    PacketCodec.AnnouncedOfEncode(p, rest);
    var prefix := U32(Size(p));
    assert prefix == b[0..4] by { GetThenWrite(b[0..4]); }
    Rejoin(b, prefix, PacketCodec.Encode(p), rest);
  }

  lemma Rejoin(b: seq<byte>, prefix: seq<byte>, packet: seq<byte>, rest: seq<byte>)
    requires |b| >= PREFIX && prefix == b[0..4] && b[PREFIX..] == packet + rest
    ensures b == (prefix + packet) + rest
  {
    assert b == prefix + b[PREFIX..];
  }

  lemma PrefixField(n: nat, rest: seq<byte>)
    requires n <= 0xFFFF_FFFF
    ensures GetU32(U32(n) + rest, 0) == n && (U32(n) + rest)[PREFIX..] == rest
  {
    FieldsKeepLowBits(n);
    FieldInFront(U32(n), rest);
  }

  lemma FieldInFront(f: seq<byte>, rest: seq<byte>)
    requires |f| == PREFIX
    ensures GetU32(f + rest, 0) == FromBigEndian(f) && (f + rest)[PREFIX..] == rest
  {
    assert (f + rest)[0..4] == f;
  }

  /** An encoded frame: the true size in the prefix, the lengths cut to their fields in the header. */
  lemma FrameLayout(p: Packet, rest: seq<byte>)
    requires Size(p) <= 0xFFFF_FFFF
    ensures var b := Encode(p) + rest;
            && |b| == PREFIX + Size(p) + |rest|
            && GetU32(b, 0) == Size(p)
            && b[PREFIX..] == PacketCodec.Encode(p) + rest
            && PacketCodec.Announced(b[PREFIX..]) == FIXED_HEADER_SIZE + |p.extHeader| % 0x1_0000 + |p.payload|
  {
    var n, frame := Size(p), PacketCodec.Encode(p) + rest;
    PacketCodec.AnnouncedOfEncode(p, rest);
    PrefixField(n, frame);
    assert Encode(p) + rest == U32(n) + frame;
  }

  lemma DecodeOfEncode(max: int, p: Packet, rest: seq<byte>)
    requires WithinLimits(p, max) && Size(p) <= 0xFFFF_FFFF
    ensures Decode(max, Encode(p) + rest) == Decoded(p, rest)
  {
    FrameLayout(p, rest);
    PacketCodec.DecodeOfEncode(max, p, rest);
  }

  /** The decoder accepts exactly the prefixed encodings of packets within limits. */
  lemma DecodesIffEncoded(max: int, b: seq<byte>, p: Packet, rest: seq<byte>)
    ensures Decode(max, b) == Decoded(p, rest)
            <==> WithinLimits(p, max) && Size(p) <= 0xFFFF_FFFF && b == Encode(p) + rest
  {
    if Decode(max, b) == Decoded(p, rest) {
      RefinesPlain(max, b);
      PacketCodec.EncodeOfDecode(max, b[PREFIX..]);
    }
    if WithinLimits(p, max) && Size(p) <= 0xFFFF_FFFF && b == Encode(p) + rest {
      DecodeOfEncode(max, p, rest);
    }
  }

  /**
   Under this framing a packet whose ext header is too long for its field is refused rather than
   misread: the prefix holds the true length, the header the cut one.
   */
  lemma RoundTripsElseRefused(max: int, p: Packet, rest: seq<byte>)
    requires ArraySized(p) && Size(p) <= 0xFFFF_FFFF
    ensures if |p.extHeader| <= 0xFFFF && |p.payload| <= max then Decode(max, Encode(p) + rest) == Decoded(p, rest)
            else Decode(max, Encode(p) + rest).Malformed?
  {
    if |p.extHeader| <= 0xFFFF && |p.payload| <= max {
      DecodeOfEncode(max, p, rest);
    } else {
      FrameLayout(p, rest);
      PacketCodec.EncodeLayout(p, rest);
    }
  }

  /**
   Whatever the prefix says, the length is refused from it, or as too short, exactly when no packet within limits has
   it; under a negative limit no packet is within limits.
   */
  lemma FrameLengthsAreExact(max: int, length: nat)
    requires length <= 0xFFFF_FFFF
    ensures 0 <= max && FIXED_HEADER_SIZE <= length <= MaxFrameLength(max)
            <==> exists p :: WithinLimits(p, max) && Size(p) == length
  {
    if 0 <= max && FIXED_HEADER_SIZE <= length <= MaxFrameLength(max) {
      var body := length - FIXED_HEADER_SIZE;
      var n := if body <= max then body else max;
      var p := Packet(OneWay, 0, 0, seq(n, _ => 0), seq(body - n, _ => 0), NoCompression, 0);
      assert WithinLimits(p, max) && Size(p) == length;
    }
  }

  lemma PrefixedIsIncremental(max: int)
    ensures Incremental(Prefixed(max))
  {
    forall b: seq<byte>, more: seq<byte>
      ensures Decode(max, b).Malformed? ==> Decode(max, b + more) == Decode(max, b)
      ensures Decode(max, b).Decoded? ==> Decode(max, b + more) == Decoded(Decode(max, b).item, Decode(max, b).rest + more)
    {
      DecodeSettles(max, b, more);
    }
  }

  lemma DecodeSettles(max: int, b: seq<byte>, more: seq<byte>)
    ensures Decode(max, b).Malformed? ==> Decode(max, b + more) == Decode(max, b)
    ensures Decode(max, b).Decoded? ==> Decode(max, b + more) == Decoded(Decode(max, b).item, Decode(max, b).rest + more)
  {
    if |b| >= PREFIX {
      assert (b + more)[0..4] == b[0..4];
      if |b| - PREFIX >= GetU32(b, 0) >= FIXED_HEADER_SIZE {
        var frame := b[PREFIX..];
        assert (b + more)[PREFIX..] == frame + more;
        PacketCodec.SameHeader(frame, more);
        PacketCodec.DecodeSettles(max, frame, more);
        IncompleteFrameUnreachable(max, b);
      }
    }
  }

  lemma PrefixedReadsBack(max: int, ps: seq<Packet>)
    requires forall p | p in ps :: WithinLimits(p, max) && Size(p) <= 0xFFFF_FFFF
    ensures ReadsBack(Prefixed(max), Encode, ps)
  {
    forall p, rest | p in ps ensures Prefixed(max)(Encode(p) + rest) == Decoded(p, rest) {
      DecodeOfEncode(max, p, rest);
    }
  }

  /** The accepted frames of `b`, each without its prefix. */
  ghost function Strip(max: int, b: seq<byte>): seq<byte>
    decreases |b|
  {
    if !Decode(max, b).Decoded? then []
    else
      RefinesPlain(max, b);
      b[PREFIX..PREFIX + GetU32(b, 0)] + Strip(max, Decode(max, b).rest)
  }

  /** Stripping the prefixes off a stream leaves a stream the plain codec decodes to the same packets. */
  lemma {:induction false} StrippedStreamIsPlain(max: int, b: seq<byte>)
    ensures Drain(PacketCodec.Plain(max), Strip(max, b)) == Reader(Drain(Prefixed(max), b).items, [], None)
    decreases |b|
  {
    if Decode(max, b).Decoded? {
      var p, rest := Decode(max, b).item, Decode(max, b).rest;
      RefinesPlain(max, b);
      StrippedStreamIsPlain(max, rest);
      StripOne(max, b);
    }
  }

  /** Stripping the first frame's prefix leaves the first packet's plain encoding. */
  lemma StripOne(max: int, b: seq<byte>)
    requires Decode(max, b).Decoded?
    ensures var s := Strip(max, Decode(max, b).rest);
            PacketCodec.Decode(max, Strip(max, b)) == Decoded(Decode(max, b).item, s)
  {
    var p, rest := Decode(max, b).item, Decode(max, b).rest;
    RefinesPlain(max, b);
    PacketCodec.EncodeOfDecode(max, b[PREFIX..]);
    PacketCodec.EncodeLayout(p, rest);
    TakeFrame(b, PacketCodec.Encode(p), rest);
    PacketCodec.DecodeOfEncode(max, p, Strip(max, rest));
  }

  lemma TakeFrame(b: seq<byte>, frame: seq<byte>, rest: seq<byte>)
    requires |b| >= PREFIX && b[PREFIX..] == frame + rest
    ensures b[PREFIX..PREFIX + |frame|] == frame
  {
    assert b[PREFIX..PREFIX + |frame|] == b[PREFIX..][..|frame|];
  }

  method EncodeInto(p: Packet, out: Buffer)
    modifies out
    ensures out.readable == old(out.readable) + Encode(p)
  {
    out.WriteInt(FIXED_HEADER_SIZE + |p.extHeader| + |p.payload|);
    PacketCodec.EncodeInto(p, out);
  }

  /** `decode`: on a refusal inside the frame the prefix is already gone, but the stream is dead then. */
  method DecodeFrom(max: int, buf: Buffer) returns (v: Verdict<Packet>)
    modifies buf
    ensures v == Decode(max, old(buf.readable))
    ensures v.Decoded? ==> buf.readable == v.rest
    ensures v.NeedMore? ==> buf.readable == old(buf.readable)
    ensures v.Malformed? ==>
              buf.readable == old(buf.readable) || (PREFIX <= |old(buf.readable)| && buf.readable == old(buf.readable)[PREFIX..])
  {
    var b := buf.readable;
    if |b| < PREFIX {
      return NeedMore;
    }
    var length := GetU32(b, 0);
    if length > MaxFrameLength(max) {
      return Malformed(FrameTooLong(length, MaxFrameLength(max)));
    }
    if |b| - PREFIX < length {
      return NeedMore;
    }
    if length < FIXED_HEADER_SIZE {
      return Malformed(FrameTooShort(length));
    }
    var packetLength := FIXED_HEADER_SIZE + GetU16(b, PREFIX + 8) + GetU32(b, PREFIX + 10);
    assert b[PREFIX..][8..10] == b[12..14] && b[PREFIX..][10..14] == b[14..18];
    if packetLength != length {
      return Malformed(FrameMismatch(length, packetLength));
    }
    var _ := buf.ReadBytes(PREFIX);
    v := PacketCodec.DecodeFrom(max, buf);
    if v.NeedMore? {
      v := Malformed(IncompleteFrame);
    }
  }
}
