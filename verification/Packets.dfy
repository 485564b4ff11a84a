/** The packed little-endian datagrams of the sender. */
module Packets {
  import opened Bytes

  type u16 = x: int | 0 <= x < 0x1_0000
  type u32 = x: int | 0 <= x < 0x1_0000_0000

  const TYPE_HELLO_REQUEST: byte := 1
  const TYPE_HELLO_RESPONSE: byte := 2
  const TYPE_HANDSHAKE: byte := 3
  const TYPE_HANDSHAKE_ACK: byte := 4
  const TYPE_DATA: byte := 5
  const TYPE_DATA_ACK: byte := 6
  const TYPE_FINISH: byte := 7
  const TYPE_FINISH_ACK: byte := 8

  const MAX_FRAME_SIZE: nat := 500
  const MAX_RECORD_SIZE: nat := 200
  const SESSION_SIZE: nat := 10000

  const NAME_SIZE: nat := 10
  const DATA_HEADER: nat := 11

  // ---------------------------------------------------------------- fields

  function Le16(x: u16): (b: seq<byte>)
    ensures |b| == 2
  {
    [(x % 256) as byte, (x / 256) as byte]
  }

  function Le32(x: u32): (b: seq<byte>)
    ensures |b| == 4
  {
    Le16(x % 0x1_0000) + Le16(x / 0x1_0000)
  }

  function Get16(b: seq<byte>, at: nat): u16
    requires at + 2 <= |b|
  {
    b[at] as int + 256 * b[at + 1] as int
  }

  function Get32(b: seq<byte>, at: nat): u32
    requires at + 4 <= |b|
  {
    Get16(b, at) + 0x1_0000 * Get16(b, at + 2)
  }

  /** A 16-bit field reads back wherever it was put. */
  lemma Field16(a: seq<byte>, x: u16, z: seq<byte>)
    ensures Get16(a + Le16(x) + z, |a|) == x
  {
    var b := a + Le16(x) + z;
    assert b[|a|] == Le16(x)[0] && b[|a| + 1] == Le16(x)[1];
  }

  lemma Field32(a: seq<byte>, x: u32, z: seq<byte>)
    ensures Get32(a + Le32(x) + z, |a|) == x
  {
    var lo, hi := x % 0x1_0000, x / 0x1_0000;
    Field16(a, lo, Le16(hi) + z);
    Field16(a + Le16(lo), hi, z);
    assert a + Le32(x) + z == a + Le16(lo) + (Le16(hi) + z);
    assert a + Le32(x) + z == (a + Le16(lo)) + Le16(hi) + z;
  }

  // ---------------------------------------------------------------- packets

  /** `Handshake` is the 17-byte struct; `Ack` the answer to a data packet. */
  datatype Packet =
    | Hello(kind: byte, sessionId: u32, port: u16, hostName: seq<byte>)
    | Handshake(kind: byte, sessionId: u32, packets: u16, fileName: seq<byte>)
    | Data(kind: byte, sessionId: u32, length: u32, seqNum: u16, data: seq<byte>)
    | Ack(kind: byte, sessionId: u32, expected: u16)
    | Finish(kind: byte, sessionId: u32, port: u16)
  {
    predicate Valid() {
      match this
      case Hello(_, _, _, name) => |name| == NAME_SIZE
      case Handshake(_, _, _, name) => |name| == NAME_SIZE
      case Data(_, _, length, _, data) => |data| == length <= MAX_FRAME_SIZE
      case _ => true
    }
  }

  function Encode(p: Packet): seq<byte> {
    match p
    case Hello(k, id, port, name) => [k] + Le32(id) + Le16(port) + name
    case Handshake(k, id, packets, name) => [k] + Le32(id) + Le16(packets) + name
    case Data(k, id, length, seqNum, data) => [k] + Le32(id) + Le32(length) + Le16(seqNum) + data
    case Ack(k, id, expected) => [k] + Le32(id) + Le16(expected)
    case Finish(k, id, port) => [k] + Le32(id) + Le16(port)
  }

  /** The casts of received buffers to the packed structs. */
  function AsHello(b: seq<byte>): Packet
    requires |b| >= 17
  {
    Hello(b[0], Get32(b, 1), Get16(b, 5), b[7..17])
  }

  function AsHandshake(b: seq<byte>): Packet
    requires |b| >= 17
  {
    Handshake(b[0], Get32(b, 1), Get16(b, 5), b[7..17])
  }

  /** The data of the struct is as long as its length field says. */
  function AsData(b: seq<byte>): Packet
    requires |b| >= DATA_HEADER && |b| >= DATA_HEADER + Get32(b, 5)
  {
    Data(b[0], Get32(b, 1), Get32(b, 5), Get16(b, 9), b[DATA_HEADER..DATA_HEADER + Get32(b, 5)])
  }

  function AsAck(b: seq<byte>): Packet
    requires |b| >= 7
  {
    Ack(b[0], Get32(b, 1), Get16(b, 5))
  }

  function AsFinish(b: seq<byte>): Packet
    requires |b| >= 7
  {
    Finish(b[0], Get32(b, 1), Get16(b, 5))
  }

  lemma ShortFields(k: byte, id: u32, x: u16, z: seq<byte>)
    ensures var b := [k] + Le32(id) + Le16(x) + z;
      |b| == 7 + |z| && b[0] == k && Get32(b, 1) == id && Get16(b, 5) == x && b[7..] == z
  {
    hide Get32, Get16, Le32, Le16;
    var b := [k] + Le32(id) + Le16(x) + z;
    Field32([k], id, Le16(x) + z);
    assert b == [k] + Le32(id) + (Le16(x) + z);
    Field16([k] + Le32(id), x, z);
  }

  lemma DataFields(k: byte, id: u32, n: u32, q: u16, z: seq<byte>)
    ensures var b := [k] + Le32(id) + Le32(n) + Le16(q) + z;
      |b| == 11 + |z| && b[0] == k && Get32(b, 1) == id && Get32(b, 5) == n && Get16(b, 9) == q && b[11..] == z
  {
    hide Get32, Get16, Le32, Le16;
    var b := [k] + Le32(id) + Le32(n) + Le16(q) + z;
    Field32([k], id, Le32(n) + Le16(q) + z);
    assert b == [k] + Le32(id) + (Le32(n) + Le16(q) + z);
    Field32([k] + Le32(id), n, Le16(q) + z);
    assert b == ([k] + Le32(id)) + Le32(n) + (Le16(q) + z);
    Field16([k] + Le32(id) + Le32(n), q, z);
  }

  /** Every field of every packet survives the trip through its bytes, for all 16- and 32-bit values,
      and the datagram has the length the struct gives it. */
  lemma LayoutRoundTrip(p: Packet)
    requires p.Valid()
    ensures match p
      case Hello(_, _, _, _) => |Encode(p)| == 17 && AsHello(Encode(p)) == p
      case Handshake(_, _, _, _) => |Encode(p)| == 17 && AsHandshake(Encode(p)) == p
      case Data(_, _, length, _, _) =>
        |Encode(p)| == DATA_HEADER + length && Get32(Encode(p), 5) == length && AsData(Encode(p)) == p
      case Ack(_, _, _) => |Encode(p)| == 7 && AsAck(Encode(p)) == p
      case Finish(_, _, _) => |Encode(p)| == 7 && AsFinish(Encode(p)) == p
  {
    hide Get32, Get16, Le32, Le16;
    match p {
      case Hello(k, id, port, name) =>
        ShortFields(k, id, port, name);
        assert Encode(p)[7..17] == name;
      case Handshake(k, id, packets, name) =>
        ShortFields(k, id, packets, name);
        assert Encode(p)[7..17] == name;
      case Data(k, id, length, seqNum, data) =>
        DataFields(k, id, length, seqNum, data);
        assert Encode(p)[DATA_HEADER..DATA_HEADER + length] == data;
      case Ack(k, id, x) =>
        ShortFields(k, id, x, []);
        assert Encode(p) == [k] + Le32(id) + Le16(x) + [];
      case Finish(k, id, x) =>
        ShortFields(k, id, x, []);
        assert Encode(p) == [k] + Le32(id) + Le16(x) + [];
    }
  }
}
