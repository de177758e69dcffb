/** Screen video chunks cut into datagram payloads, and the checks on each payload received. */
module ScreenFragments {
  import opened Options
  import opened Bytes

  const MAX_PAYLOAD: nat := 1151
  const HEADER: nat := 23
  const FRAGMENT: nat := 1128
  const MAX_CHUNK: nat := 262144
  const MAX_FRAGMENTS: nat := 233
  const MAX_WIDTH: nat := 2560
  const MAX_HEIGHT: nat := 1440
  const MAX_DURATION: nat := 1_000_000
  const MAX_TIMESTAMP: nat := 0x1F_FFFF_FFFF_FFFF

  datatype Metadata = Metadata(displayWidth: nat, displayHeight: nat, timestamp: nat, duration: nat, keyFrame: bool)

  datatype Fragment = Fragment(metadata: Metadata, index: nat, count: nat, totalSize: nat, data: bytes)

  predicate ValidSize(width: nat, height: nat) {
    2 <= width <= MAX_WIDTH && 2 <= height <= MAX_HEIGHT && width % 2 == 0 && height % 2 == 0
  }

  predicate ValidTiming(timestamp: nat, duration: nat) {
    timestamp <= MAX_TIMESTAMP && 0 < duration <= MAX_DURATION && timestamp <= MAX_TIMESTAMP - duration
  }

  predicate ValidMetadata(m: Metadata) {
    ValidSize(m.displayWidth, m.displayHeight) && ValidTiming(m.timestamp, m.duration)
  }

  /** The number of fragments of a chunk. */
  function Count(size: nat): nat {
    (size + FRAGMENT - 1) / FRAGMENT
  }

  /** The size of each fragment: all are full but the last. */
  function SizeAt(size: nat, index: nat): nat
    requires index < Count(size)
  {
    if index == Count(size) - 1 then size - index * FRAGMENT else FRAGMENT
  }

  /** The part of a chunk that a fragment carries. */
  function Part(data: bytes, index: nat): (part: bytes)
    requires index < Count(|data|)
    ensures |part| == SizeAt(|data|, index)
  {
    data[index * FRAGMENT..index * FRAGMENT + SizeAt(|data|, index)]
  }

  lemma CountFits(size: nat)
    requires 0 < size <= MAX_CHUNK
    ensures 0 < Count(size) <= MAX_FRAGMENTS
    ensures (Count(size) - 1) * FRAGMENT < size <= Count(size) * FRAGMENT
  {
  }

  function Header(m: Metadata, index: nat, totalSize: nat): (h: bytes)
    ensures |h| == HEADER
  {
    [if m.keyFrame then 1 else 0] + BigEndian(index, 2) + BigEndian(m.timestamp, 8) + BigEndian(m.duration, 4)
      + BigEndian(totalSize, 4) + BigEndian(m.displayWidth, 2) + BigEndian(m.displayHeight, 2)
  }

  /** The payloads of a chunk, or nothing if it cannot be sent. */
  function Encode(m: Metadata, data: bytes): Option<seq<bytes>> {
    if !ValidMetadata(m) || |data| == 0 || |data| > MAX_CHUNK || Count(|data|) > MAX_FRAGMENTS then None
    else Some(seq(Count(|data|), i requires 0 <= i < Count(|data|) => Header(m, i, |data|) + Part(data, i)))
  }

  function Decode(p: bytes): Option<Fragment> {
    if |p| <= HEADER || |p| > MAX_PAYLOAD || p[0] > 1 then None
    else
      var m := Metadata(Number(p[19..21]), Number(p[21..23]), Number(p[3..11]), Number(p[11..15]), p[0] == 1);
      var index, size := Number(p[1..3]), Number(p[15..19]);
      if !ValidMetadata(m) || size == 0 || size > MAX_CHUNK || Count(size) > MAX_FRAGMENTS || index >= Count(size) then None
      else if |p| - HEADER != SizeAt(size, index) then None
      else Some(Fragment(m, index, Count(size), size, p[HEADER..]))
  }

  lemma HeaderFields(m: Metadata, index: nat, size: nat, rest: bytes)
    requires ValidMetadata(m) && index < 0x1_0000 && size < 0x1_0000_0000
    ensures var p := Header(m, index, size) + rest;
      && p[0] == (if m.keyFrame then 1 else 0)
      && Number(p[1..3]) == index && Number(p[3..11]) == m.timestamp && Number(p[11..15]) == m.duration
      && Number(p[15..19]) == size && Number(p[19..21]) == m.displayWidth && Number(p[21..23]) == m.displayHeight
      && p[HEADER..] == rest
  {
    Pow256Values();
    var p := Header(m, index, size) + rest;
    assert p[1..3] == BigEndian(index, 2) && p[3..11] == BigEndian(m.timestamp, 8) && p[11..15] == BigEndian(m.duration, 4);
    assert p[15..19] == BigEndian(size, 4) && p[19..21] == BigEndian(m.displayWidth, 2) && p[21..23] == BigEndian(m.displayHeight, 2);
    NumberOfBigEndian(index, 2);
    NumberOfBigEndian(m.timestamp, 8);
    NumberOfBigEndian(m.duration, 4);
    NumberOfBigEndian(size, 4);
    NumberOfBigEndian(m.displayWidth, 2);
    NumberOfBigEndian(m.displayHeight, 2);
  }

  /** Every payload of a chunk decodes to its part of the chunk, with the chunk's metadata. */
  lemma FragmentRoundTrip(m: Metadata, data: bytes, i: nat)
    requires Encode(m, data).Some? && i < |Encode(m, data).value|
    ensures |Encode(m, data).value[i]| <= MAX_PAYLOAD
    ensures Decode(Encode(m, data).value[i]) == Some(Fragment(m, i, Count(|data|), |data|, Part(data, i)))
  {
    CountFits(|data|);
    HeaderFields(m, i, |data|, Part(data, i));
  }

  /** A payload that decodes is the only one that decodes to its fragment. */
  lemma FragmentDecodesOnce(p: bytes)
    requires Decode(p).Some?
    ensures var f := Decode(p).value;
      && p == Header(f.metadata, f.index, f.totalSize) + f.data
      && ValidFragment(f)
  {
    var f := Decode(p).value;
    BigEndianOfNumber(p[1..3]);
    BigEndianOfNumber(p[3..11]);
    BigEndianOfNumber(p[11..15]);
    BigEndianOfNumber(p[15..19]);
    BigEndianOfNumber(p[19..21]);
    BigEndianOfNumber(p[21..23]);
    var h := Header(f.metadata, f.index, f.totalSize);
    assert p[..HEADER] == [p[0]] + p[1..3] + p[3..11] + p[11..15] + p[15..19] + p[19..21] + p[21..23];
    assert p == p[..HEADER] + p[HEADER..];
  }

  /** What decoding guarantees of a fragment. */
  predicate ValidFragment(f: Fragment) {
    && 0 < f.totalSize <= MAX_CHUNK && f.count == Count(f.totalSize)
    && f.index < f.count && |f.data| == SizeAt(f.totalSize, f.index)
  }
}
