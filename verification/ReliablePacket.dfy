/** Byte strings and big-endian integers. */
module Bytes {
  type byte = x: int | 0 <= x < 256
  type bytes = seq<byte>

  /** What was read off the front, and what is left. */
  datatype Cut<T> = Cut(value: T, rest: bytes)

  /** The `n`-byte big-endian form of `value`. */
  function BigEndian(value: nat, n: nat): (r: bytes)
    ensures |r| == n
  {
    if n == 0 then [] else BigEndian(value / 256, n - 1) + [value % 256]
  }

  /** The number a big-endian byte string denotes. */
  function Number(b: bytes): nat {
    if b == [] then 0 else Number(b[..|b| - 1]) * 256 + b[|b| - 1]
  }

  function Pow256(n: nat): (p: nat)
    ensures p >= 1
  {
    if n == 0 then 1 else 256 * Pow256(n - 1)
  }

  lemma {:induction false} NumberOfBigEndian(value: nat, n: nat)
    requires value < Pow256(n)
    ensures Number(BigEndian(value, n)) == value
  {
    if n > 0 {
      NumberOfBigEndian(value / 256, n - 1);
      var b := BigEndian(value, n);
      assert b[..n - 1] == BigEndian(value / 256, n - 1);
    }
  }

  lemma {:induction false} BigEndianOfNumber(b: bytes)
    ensures Number(b) < Pow256(|b|)
    ensures BigEndian(Number(b), |b|) == b
  {
    if b != [] {
      BigEndianOfNumber(b[..|b| - 1]);
      assert b == b[..|b| - 1] + [b[|b| - 1]];
    }
  }

  lemma Pow256Values()
    ensures Pow256(2) == 0x1_0000
    ensures Pow256(4) == 0x1_0000_0000
    ensures Pow256(8) == 0x1_0000_0000_0000_0000
  {
    assert Pow256(4) == 256 * 256 * Pow256(2);
    assert Pow256(6) == 256 * 256 * Pow256(4);
  }
}

/** The plaintext of a reliable packet and the checks applied on both ends of the wire. */
module ReliablePackets {
  import opened Bytes
  import opened Words
  import opened SequenceWindows

  const MAX_RELIABLE_FRAGMENTS := 1024
  const FIXED_SIZE := 2 + 8 + 2 + 2 + 8 + 8
  const SESSION_HEADER_SIZE := 4 + 1 + 16 + 8
  const AEAD_TAG_SIZE := 16
  const MAX_BRIDGE_INNER_SIZE := 1200 - SESSION_HEADER_SIZE - AEAD_TAG_SIZE - 16
  const MAX_RELIABLE_PAYLOAD := MAX_BRIDGE_INNER_SIZE - SESSION_HEADER_SIZE - FIXED_SIZE - AEAD_TAG_SIZE

  datatype Packet = Packet(
    channel: uint16,
    sequence: uint64,
    index: uint16,
    count: uint16,
    ackBase: uint64,
    ackBitmap: uint64,
    payload: bytes)
  {
    predicate AckOnly() {
      sequence == 0
    }
  }

  /** The checks every packet passes before it is sealed and after it is opened. */
  predicate ValidBody(p: Packet) {
    && p.channel != 0
    && ValidAck(p.ackBase, p.ackBitmap)
    && if p.AckOnly() then
         p.index == 0 && p.count == 0 && p.payload == []
       else
         && 0 < p.count <= MAX_RELIABLE_FRAGMENTS
         && p.index < p.count
         && p.sequence > p.index
         && p.count - 1 <= MAX_UINT64 - (p.sequence - p.index)
         && 0 < |p.payload| <= MAX_RELIABLE_PAYLOAD
  }

  datatype Decoded = Rejected | Decoded(packet: Packet)

  function EncodeBody(p: Packet): bytes {
    BigEndian(p.channel, 2) + BigEndian(p.sequence, 8) + BigEndian(p.index, 2) + BigEndian(p.count, 2)
    + BigEndian(p.ackBase, 8) + BigEndian(p.ackBitmap, 8) + p.payload
  }

  function Uint16(b: bytes): uint16
    requires |b| == 2
  {
    BigEndianOfNumber(b); Pow256Values(); Number(b)
  }

  function Uint64(b: bytes): uint64
    requires |b| == 8
  {
    BigEndianOfNumber(b); Pow256Values(); Number(b)
  }

  function DecodeBody(plain: bytes): Decoded {
    if |plain| < FIXED_SIZE then Rejected
    else
      var p := Packet(Uint16(plain[0..2]), Uint64(plain[2..10]), Uint16(plain[10..12]), Uint16(plain[12..14]),
                      Uint64(plain[14..22]), Uint64(plain[22..30]), plain[FIXED_SIZE..]);
      if ValidBody(p) then Decoded(p) else Rejected
  }

  /** A packet that passes the checks survives the wire. */
  lemma BodyRoundTrip(p: Packet)
    requires ValidBody(p)
    ensures DecodeBody(EncodeBody(p)) == Decoded(p)
  {
    var b := EncodeBody(p);
    Pow256Values();
    assert b[0..2] == BigEndian(p.channel, 2);
    assert b[2..10] == BigEndian(p.sequence, 8);
    assert b[10..12] == BigEndian(p.index, 2);
    assert b[12..14] == BigEndian(p.count, 2);
    assert b[14..22] == BigEndian(p.ackBase, 8);
    assert b[22..30] == BigEndian(p.ackBitmap, 8);
    assert b[30..] == p.payload;
    NumberOfBigEndian(p.channel, 2);
    NumberOfBigEndian(p.sequence, 8);
    NumberOfBigEndian(p.index, 2);
    NumberOfBigEndian(p.count, 2);
    NumberOfBigEndian(p.ackBase, 8);
    NumberOfBigEndian(p.ackBitmap, 8);
  }

  lemma InFields(plain: bytes)
    requires |plain| >= 30
    ensures plain == plain[0..2] + plain[2..10] + plain[10..12] + plain[12..14] + plain[14..22] + plain[22..30] + plain[30..]
  {
  }

  /** A body that decodes is the one encoding of its packet, and that packet passes the checks. */
  lemma BodyDecodesOnce(plain: bytes)
    requires DecodeBody(plain).Decoded?
    ensures ValidBody(DecodeBody(plain).packet) && EncodeBody(DecodeBody(plain).packet) == plain
  {
    hide Number, BigEndian, ValidBody;
    BigEndianOfNumber(plain[0..2]);
    BigEndianOfNumber(plain[2..10]);
    BigEndianOfNumber(plain[10..12]);
    BigEndianOfNumber(plain[12..14]);
    BigEndianOfNumber(plain[14..22]);
    BigEndianOfNumber(plain[22..30]);
    InFields(plain);
  }

  /** What sealing adds to a body, and forwarding to a sealed packet: a header and a tag each, and the address of the peer
      that an intermediary passes it on to. */
  function DatagramSize(p: Packet): nat {
    var sealed := 29 + |EncodeBody(p)| + 16;
    29 + 16 + sealed + 16
  }

  /** Every valid packet fits a datagram of 1200 bytes even when it goes through an intermediary, and the largest fills it. */
  lemma PacketFitsDatagram(p: Packet)
    requires ValidBody(p)
    ensures DatagramSize(p) <= 1200
    ensures |p.payload| == MAX_RELIABLE_PAYLOAD <==> DatagramSize(p) == 1200
  {
  }
}
