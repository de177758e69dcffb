/** The control and data messages of a file transfer, as bytes on the wire. */
module FileMessages {
  import opened Options
  import opened Bytes

  const MAX_FILE_BYTES: nat := 0x4000_0000
  const CHUNK: nat := 32768

  const NO_ID: bytes := [0, 0, 0, 0, 0, 0, 0, 0, 0, 0, 0, 0, 0, 0, 0, 0]

  type TransferId = b: bytes | |b| == 16 && b != NO_ID witness [1, 0, 0, 0, 0, 0, 0, 0, 0, 0, 0, 0, 0, 0, 0, 0]
  type Digest = b: bytes | |b| == 32 witness NO_ID + NO_ID

  datatype Control =
    | Offer(id: TransferId, name: bytes, size: nat, digest: Digest)
    | Accept(id: TransferId)
    | Reject(id: TransferId)
    | Cancel(id: TransferId)
    | DataAck(id: TransferId)

  datatype Chunk = Chunk(id: TransferId, data: bytes)

  /** What an offer must satisfy on both ends; which byte strings are file names is a parameter. */
  predicate ValidControl(c: Control, names: bytes -> bool) {
    c.Offer? ==> |c.name| > 0 && names(c.name) && c.size <= MAX_FILE_BYTES
  }

  function EncodeControl(c: Control): bytes
    requires c.Offer? ==> c.size < Pow256(8)
  {
    match c
    case Offer(id, name, size, digest) => [1] + id + BigEndian(size, 8) + digest + name
    case Accept(id) => [2] + id
    case Reject(id) => [3] + id
    case Cancel(id) => [4] + id
    case DataAck(id) => [5] + id
  }

  function DecodeControl(p: bytes, names: bytes -> bool): Option<Control> {
    if |p| < 17 || p[1..17] == NO_ID then None
    else
      var id: TransferId := p[1..17];
      if p[0] == 1 then
        if |p| <= 57 || Number(p[17..25]) > MAX_FILE_BYTES || !names(p[57..]) then None
        else Some(Offer(id, p[57..], Number(p[17..25]), p[25..57]))
      else if |p| != 17 then None
      else if p[0] == 2 then Some(Accept(id))
      else if p[0] == 3 then Some(Reject(id))
      else if p[0] == 4 then Some(Cancel(id))
      else if p[0] == 5 then Some(DataAck(id))
      else None
  }

  /** A control message survives the wire. */
  lemma ControlRoundTrip(c: Control, names: bytes -> bool)
    requires ValidControl(c, names)
    ensures c.Offer? ==> c.size < Pow256(8)
    ensures DecodeControl(EncodeControl(c), names) == Some(c)
  {
    Pow256Values();
    var p := EncodeControl(c);
    assert p[1..17] == c.id;
    if c.Offer? {
      assert p[17..25] == BigEndian(c.size, 8);
      assert p[25..57] == c.digest;
      assert p[57..] == c.name;
      NumberOfBigEndian(c.size, 8);
    }
  }

  /** Only one byte string decodes to a given control message, and only valid messages are decoded. */
  lemma ControlDecodesOnce(p: bytes, names: bytes -> bool)
    requires DecodeControl(p, names).Some?
    ensures ValidControl(DecodeControl(p, names).value, names)
    ensures var c := DecodeControl(p, names).value;
      && (c.Offer? ==> c.size < Pow256(8))
      && EncodeControl(c) == p
  {
    Pow256Values();
    var c := DecodeControl(p, names).value;
    FirstAndRest(p, 17);
    if c.Offer? {
      BigEndianOfNumber(p[17..25]);
      assert EncodeControl(c) == [p[0]] + p[1..17] + p[17..25] + p[25..57] + p[57..];
      OfferParts(p);
    }
  }

  lemma FirstAndRest(p: bytes, n: nat)
    requires 0 < n <= |p|
    ensures p == [p[0]] + p[1..n] + p[n..]
  {
  }

  lemma OfferParts(p: bytes)
    requires |p| >= 57
    ensures p == [p[0]] + p[1..17] + p[17..25] + p[25..57] + p[57..]
  {
  }

  function EncodeChunk(c: Chunk): bytes {
    c.id + c.data
  }

  function DecodeChunk(p: bytes): Option<Chunk> {
    if |p| <= 16 || |p| > 16 + CHUNK || p[..16] == NO_ID then None
    else Some(Chunk(p[..16], p[16..]))
  }

  /** A chunk survives the wire exactly when it is neither empty nor longer than the chunk size. */
  lemma ChunkRoundTrip(c: Chunk)
    ensures DecodeChunk(EncodeChunk(c)) == Some(c) <==> 0 < |c.data| <= CHUNK
  {
    assert EncodeChunk(c)[..16] == c.id;
    assert EncodeChunk(c)[16..] == c.data;
  }

  /** A payload decodes to a chunk exactly when it is that chunk written down, and one of a legal size. */
  lemma ChunkIff(p: bytes, c: Chunk)
    ensures DecodeChunk(p) == Some(c) <==> p == EncodeChunk(c) && 0 < |c.data| <= CHUNK
  {
    ChunkRoundTrip(c);
    if DecodeChunk(p) == Some(c) {
      assert p == p[..16] + p[16..];
    }
  }
}
