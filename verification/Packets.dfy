/**
 The packet and its one-byte codes.
 */
module Packets {
  import opened Bytes
  import opened Wrappers

  datatype PacketType = OneWay | Request | Response

  datatype Compression = NoCompression | Zstd | Zlib

  datatype Packet = Packet(
    kind: PacketType,
    messageId: u32,
    bizType: byte,
    payload: seq<byte>,
    extHeader: seq<byte>,
    compression: Compression,
    reserved: u16)

  const PROTOCOL_VERSION: byte := 1
  const FIXED_HEADER_SIZE := 16

  function TypeCode(t: PacketType): byte {
    match t
    case OneWay => 0
    case Request => 1
    case Response => 2
  }

  function TypeFromCode(code: byte): (t: Option<PacketType>)
    ensures t.Some? ==> TypeCode(t.value) == code
    ensures t.None? ==> forall u :: TypeCode(u) != code
  {
    if code == 0 then Some(OneWay) else if code == 1 then Some(Request) else if code == 2 then Some(Response) else None
  }

  function CompressionCode(c: Compression): byte {
    match c
    case NoCompression => 0
    case Zstd => 1
    case Zlib => 2
  }

  function CompressionFromCode(code: byte): (c: Option<Compression>)
    ensures c.Some? ==> CompressionCode(c.value) == code
    ensures c.None? ==> forall d :: CompressionCode(d) != code
  {
    if code == 0 then Some(NoCompression) else if code == 1 then Some(Zstd) else if code == 2 then Some(Zlib) else None
  }

  /** The serialized size of `p`. */
  function Size(p: Packet): nat {
    FIXED_HEADER_SIZE + |p.extHeader| + |p.payload|
  }

  /** Both variable parts are arrays the platform can hold. */
  predicate ArraySized(p: Packet) {
    |p.extHeader| <= MAX_ARRAY && |p.payload| <= MAX_ARRAY
  }

  /** The packets a peer with payload limit `max` accepts: every length fits its field and the limit. */
  predicate WithinLimits(p: Packet, max: int) {
    |p.extHeader| <= 0xFFFF && |p.payload| <= max && |p.payload| <= 0xFFFF_FFFF
  }
}
