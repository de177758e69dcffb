/** Room invites: a seed and a room name as canonical, checksummed text. */
module Invites {
  import opened Options
  import opened Bytes
  import opened Numerals
  import opened Base58

  const VERSION: byte := 1
  const SEED: nat := 32
  const FIXED: nat := 33
  const CHECKSUM: nat := 2
  const MAX_NAME: nat := 256
  const MAX_TEXT: nat := 512
  const PREFIX: string := "bork://join/"

  datatype Invite = Invite(name: bytes, seed: bytes)

  /** Checking a room name: what it becomes, if it is one. Which names are allowed is a parameter. */
  type Names = bytes -> Option<bytes>

  /** An allowed name is not empty and not too long. */
  ghost predicate GoodNames(names: Names) {
    forall n :: names(n).Some? ==> 0 < |names(n).value| <= MAX_NAME
  }

  predicate Valid(i: Invite, names: Names) {
    |i.seed| == SEED && names(i.name) == Some(i.name)
  }

  // ----- the checksum -----

  /** A 16-bit register, most significant bit first. */
  type Register = r: seq<bool> | |r| == 16 witness [false, false, false, false, false, false, false, false, false, false, false, false, false, false, false, false]

  const ONES: Register := [true, true, true, true, true, true, true, true, true, true, true, true, true, true, true, true]

  /** The bits of a number, most significant first. */
  function BitsOf(value: nat, n: nat): (b: seq<bool>)
    ensures |b| == n
  {
    if n == 0 then [] else BitsOf(value / 2, n - 1) + [value % 2 == 1]
  }

  function NumberOfBits(b: seq<bool>): nat {
    if b == [] then 0 else 2 * NumberOfBits(b[..|b| - 1]) + (if b[|b| - 1] then 1 else 0)
  }

  /** Shift left by one; a one that falls out flips the bits of 0x1021: twelve, five and zero. */
  function ShiftOnce(r: Register): Register {
    var s := r[1..] + [false];
    if r[0] then s[3 := !s[3]][10 := !s[10]][15 := true] else s
  }

  function Shift(r: Register, n: nat): Register {
    if n == 0 then r else ShiftOnce(Shift(r, n - 1))
  }

  /** Exclusive or with the high byte of the register. */
  function WithByte(r: Register, value: byte): Register {
    var b := BitsOf(value, 8);
    seq(16, i requires 0 <= i < 16 => if i < 8 then r[i] != b[i] else r[i])
  }

  function Crc(content: bytes): Register {
    if content == [] then ONES else Shift(WithByte(Crc(content[..|content| - 1]), content[|content| - 1]), 8)
  }

  function Checksum(content: bytes): (r: nat)
    ensures r < 0x1_0000
  {
    BitsBound(Crc(content));
    NumberOfBits(Crc(content))
  }

  lemma {:induction false} BitsBound(b: seq<bool>)
    ensures NumberOfBits(b) < Power(2, |b|)
    ensures |b| == 16 ==> NumberOfBits(b) < 0x1_0000
  {
    if b != [] {
      BitsBound(b[..|b| - 1]);
    }
    if |b| == 16 {
      PowerSixteen();
    }
  }

  lemma PowerSixteen()
    ensures Power(2, 16) == 0x1_0000
  {
    assert Power(2, 8) == 256;
    PowerAdds(2, 8, 8);
  }

  lemma {:induction false} PowerAdds(base: nat, m: nat, n: nat)
    requires base > 0
    ensures Power(base, m + n) == Power(base, m) * Power(base, n)
  {
    if m > 0 {
      PowerAdds(base, m - 1, n);
      Associates(base, Power(base, m - 1), Power(base, n));
    }
  }

  lemma Associates(a: nat, b: nat, c: nat)
    ensures a * (b * c) == (a * b) * c
  {
  }

  lemma {:induction false} BitsBack(value: nat, n: nat)
    requires value < Power(2, n)
    ensures NumberOfBits(BitsOf(value, n)) == value
  {
    if n > 0 {
      BitsBack(value / 2, n - 1);
      assert BitsOf(value, n)[..n - 1] == BitsOf(value / 2, n - 1);
    }
  }

  lemma {:induction false} NumberInjective(a: seq<bool>, b: seq<bool>)
    requires |a| == |b| && NumberOfBits(a) == NumberOfBits(b)
    ensures a == b
  {
    if a != [] {
      var n := |a| - 1;
      assert a[n] == b[n];
      NumberInjective(a[..n], b[..n]);
      assert a == a[..n] + [a[n]] && b == b[..n] + [b[n]];
    }
  }

  lemma ShiftOnceInjective(a: Register, b: Register)
    requires ShiftOnce(a) == ShiftOnce(b)
    ensures a == b
  {
    assert ShiftOnce(a)[15] == a[0] && ShiftOnce(b)[15] == b[0];
    forall i | 1 <= i < 16
      ensures a[i] == b[i]
    {
      assert ShiftOnce(a)[i - 1] == ShiftOnce(b)[i - 1];
    }
  }

  lemma {:induction false} ShiftInjective(a: Register, b: Register, n: nat)
    requires Shift(a, n) == Shift(b, n)
    ensures a == b
  {
    if n > 0 {
      ShiftOnceInjective(Shift(a, n - 1), Shift(b, n - 1));
      ShiftInjective(a, b, n - 1);
    }
  }

  lemma WithByteInjective(a: Register, b: Register, v: byte, w: byte)
    requires WithByte(a, v) == WithByte(b, w)
    ensures v == w ==> a == b
    ensures a == b ==> v == w
  {
    forall i | 0 <= i < 16
      ensures v == w ==> a[i] == b[i]
      ensures a == b && i < 8 ==> BitsOf(v, 8)[i] == BitsOf(w, 8)[i]
    {
      assert WithByte(a, v)[i] == WithByte(b, w)[i];
    }
    if a == b {
      assert BitsOf(v, 8) == BitsOf(w, 8);
      assert Power(2, 8) == 256;
      BitsBack(v, 8);
      BitsBack(w, 8);
    }
  }

  /** The checksum detects every change of a single byte. */
  lemma {:induction false} OneByteIsDetected(a: bytes, b: bytes, k: nat)
    requires |a| == |b| && k < |a| && a[k] != b[k]
    requires forall i :: 0 <= i < |a| && i != k ==> a[i] == b[i]
    ensures Crc(a) != Crc(b) && Checksum(a) != Checksum(b)
    decreases |a|
  {
    var front, other, n := a[..|a| - 1], b[..|b| - 1], |a| - 1;
    if k == n {
      assert front == other;
    } else {
      OneByteIsDetected(front, other, k);
    }
    var x, y := WithByte(Crc(front), a[n]), WithByte(Crc(other), b[n]);
    if x == y {
      WithByteInjective(Crc(front), Crc(other), a[n], b[n]);
    } else if Shift(x, 8) == Shift(y, 8) {
      ShiftInjective(x, y, 8);
    }
    if NumberOfBits(Crc(a)) == NumberOfBits(Crc(b)) {
      NumberInjective(Crc(a), Crc(b));
    }
  }

  // ----- the checksum, bit by bit -----

  /** Feed the register one bit after the other. */
  function Feed(r: Register, bits: seq<bool>): Register
    decreases |bits|
  {
    if bits == [] then r else FeedOne(Feed(r, bits[..|bits| - 1]), bits[|bits| - 1])
  }

  function FeedOne(r: Register, bit: bool): Register {
    ShiftOnce(r[0 := r[0] != bit])
  }

  /** Exclusive or with the top of the register. */
  function WithBits(r: Register, bits: seq<bool>): Register
    requires |bits| <= 16
  {
    seq(16, i requires 0 <= i < 16 => if i < |bits| then r[i] != bits[i] else r[i])
  }

  function Bits(content: bytes): (b: seq<bool>)
    ensures |b| == 8 * |content|
  {
    if content == [] then [] else Bits(content[..|content| - 1]) + BitsOf(content[|content| - 1], 8)
  }

  lemma {:induction false} FeedJoins(r: Register, a: seq<bool>, b: seq<bool>)
    ensures Feed(r, a + b) == Feed(Feed(r, a), b)
    decreases |b|
  {
    if b == [] {
      assert a + b == a;
    } else {
      FeedJoins(r, a, b[..|b| - 1]);
      assert (a + b)[..|a + b| - 1] == a + b[..|b| - 1];
    }
  }

  lemma {:induction false} ShiftFirst(r: Register, n: nat)
    requires n > 0
    ensures Shift(r, n) == Shift(ShiftOnce(r), n - 1)
  {
    if n > 1 {
      ShiftFirst(r, n - 1);
    }
  }

  /** Shifting moves the bits not yet used up by one place. */
  lemma ShiftWithBits(r: Register, bits: seq<bool>)
    requires 0 < |bits| <= 16
    ensures ShiftOnce(WithBits(r, bits)) == WithBits(FeedOne(r, bits[0]), bits[1..])
  {
    var x, y := ShiftOnce(WithBits(r, bits)), WithBits(FeedOne(r, bits[0]), bits[1..]);
    forall i | 0 <= i < 16
      ensures x[i] == y[i]
    {
    }
  }

  /** Feeding up to sixteen bits is adding them to the top of the register and shifting them out. */
  lemma {:induction false} FeedIsShift(r: Register, bits: seq<bool>)
    requires |bits| <= 16
    ensures Feed(r, bits) == Shift(WithBits(r, bits), |bits|)
    decreases |bits|
  {
    hide FeedOne, WithBits, ShiftOnce;
    if bits == [] {
      NoBits(r);
    } else {
      ShiftWithBits(r, bits);
      ShiftFirst(WithBits(r, bits), |bits|);
      FeedIsShift(FeedOne(r, bits[0]), bits[1..]);
      FeedJoins(r, [bits[0]], bits[1..]);
      OneBit(r, bits[0]);
      assert [bits[0]] + bits[1..] == bits;
    }
  }

  lemma NoBits(r: Register)
    ensures WithBits(r, []) == r
  {
  }

  lemma OneBit(r: Register, bit: bool)
    ensures Feed(r, [bit]) == FeedOne(r, bit)
  {
    assert [bit][..0] == [];
    assert Feed(r, []) == r;
  }

  lemma {:induction false} CrcIsFeed(content: bytes)
    ensures Crc(content) == Feed(ONES, Bits(content))
  {
    hide FeedOne, ShiftOnce;
    if content != [] {
      var front, last := content[..|content| - 1], content[|content| - 1];
      CrcIsFeed(front);
      FeedJoins(ONES, Bits(front), BitsOf(last, 8));
      FeedIsShift(Crc(front), BitsOf(last, 8));
      assert WithBits(Crc(front), BitsOf(last, 8)) == WithByte(Crc(front), last);
    }
  }

  lemma FeedOneInjective(a: Register, b: Register, bit: bool)
    requires FeedOne(a, bit) == FeedOne(b, bit)
    ensures a == b
  {
    var x: Register, y: Register := a[0 := a[0] != bit], b[0 := b[0] != bit];
    ShiftOnceInjective(x, y);
    forall i | 0 <= i < 16
      ensures a[i] == b[i]
    {
      assert x[i] == y[i];
    }
  }

  lemma {:induction false} FeedInjective(a: Register, b: Register, bits: seq<bool>)
    requires Feed(a, bits) == Feed(b, bits)
    ensures a == b
    decreases |bits|
  {
    hide FeedOne;
    if bits != [] {
      var front := bits[..|bits| - 1];
      FeedOneInjective(Feed(a, front), Feed(b, front), bits[|bits| - 1]);
      FeedInjective(a, b, front);
    }
  }

  /** Different bits, sixteen at most, leave one register different. */
  lemma BurstMoves(r: Register, x: seq<bool>, y: seq<bool>)
    requires |x| == |y| <= 16 && Feed(r, x) == Feed(r, y)
    ensures x == y
  {
    hide Feed;
    FeedIsShift(r, x);
    FeedIsShift(r, y);
    ShiftInjective(WithBits(r, x), WithBits(r, y), |x|);
    forall i | 0 <= i < |x|
      ensures x[i] == y[i]
    {
      assert WithBits(r, x)[i] == WithBits(r, y)[i];
    }
  }

  lemma {:induction false} BitsInjective(a: bytes, b: bytes)
    requires |a| == |b| && Bits(a) == Bits(b)
    ensures a == b
    decreases |a|
  {
    if a != [] {
      var n := |a| - 1;
      assert Bits(a)[..8 * n] == Bits(a[..n]) && Bits(b)[..8 * n] == Bits(b[..n]);
      assert Bits(a)[8 * n..] == BitsOf(a[n], 8) && Bits(b)[8 * n..] == BitsOf(b[n], 8);
      BitsInjective(a[..n], b[..n]);
      ByteBits(a[n], b[n]);
      assert a == a[..n] + [a[n]] && b == b[..n] + [b[n]];
    }
  }

  lemma ByteBits(v: byte, w: byte)
    requires BitsOf(v, 8) == BitsOf(w, 8)
    ensures v == w
  {
    assert Power(2, 8) == 256;
    BitsBack(v, 8);
    BitsBack(w, 8);
  }

  /** Different bits in the middle, sixteen at most, leave the register different at the end. */
  lemma MiddleMoves(before: seq<bool>, x: seq<bool>, y: seq<bool>, after: seq<bool>)
    requires |x| == |y| <= 16 && Feed(ONES, before + x + after) == Feed(ONES, before + y + after)
    ensures x == y
  {
    hide Feed;
    FeedJoins(ONES, before + x, after);
    FeedJoins(ONES, before + y, after);
    FeedJoins(ONES, before, x);
    FeedJoins(ONES, before, y);
    FeedInjective(Feed(ONES, before + x), Feed(ONES, before + y), after);
    BurstMoves(Feed(ONES, before), x, y);
  }

  /** Two strings of bits that agree outside a stretch, in three parts. */
  lemma InThree(x: seq<bool>, y: seq<bool>, from: nat, n: nat)
    requires |x| == |y| && from + n <= |x|
    requires forall i :: 0 <= i < |x| && !(from <= i < from + n) ==> x[i] == y[i]
    ensures x == x[..from] + x[from..from + n] + x[from + n..]
    ensures y == x[..from] + y[from..from + n] + x[from + n..]
  {
  }

  lemma SameChecksum(a: bytes, b: bytes)
    requires Checksum(a) == Checksum(b)
    ensures Crc(a) == Crc(b)
  {
    hide Crc;
    NumberInjective(Crc(a), Crc(b));
  }

  /** The checksum detects every burst: any change of bits that all lie within sixteen in a row. */
  lemma BurstIsDetected(a: bytes, b: bytes, from: nat, n: nat)
    requires |a| == |b| && a != b && n <= 16 && from + n <= 8 * |a|
    requires forall i :: 0 <= i < 8 * |a| && !(from <= i < from + n) ==> Bits(a)[i] == Bits(b)[i]
    ensures Crc(a) != Crc(b) && Checksum(a) != Checksum(b)
  {
    hide Crc, Feed, Bits, Checksum;
    var x, y := Bits(a), Bits(b);
    InThree(x, y, from, n);
    CrcIsFeed(a);
    CrcIsFeed(b);
    if Crc(a) == Crc(b) {
      MiddleMoves(x[..from], x[from..from + n], y[from..from + n], x[from + n..]);
      BitsInjective(a, b);
      assert false;
    }
    if Checksum(a) == Checksum(b) {
      SameChecksum(a, b);
      assert false;
    }
  }

  // ----- the text -----

  function Payload(i: Invite): bytes {
    var content := [VERSION] + i.seed + i.name;
    content + BigEndian(Checksum(content), 2)
  }

  function EncodeInvite(i: Invite): string {
    PREFIX + Encode(Payload(i))
  }

  predicate IsSpace(c: char) {
    c == ' ' || '\t' <= c <= '\r' || c == '\U{85}' || c == '\U{A0}'
  }

  function TrimLeft(s: string): string {
    if s != "" && IsSpace(s[0]) then TrimLeft(s[1..]) else s
  }

  function TrimRight(s: string): string {
    if s != "" && IsSpace(s[|s| - 1]) then TrimRight(s[..|s| - 1]) else s
  }

  function TrimPrefix(s: string): string {
    if PREFIX <= s then s[|PREFIX|..] else s
  }

  /** What is left of a text to be decoded. */
  function Core(text: string): string {
    TrimPrefix(TrimRight(TrimLeft(text)))
  }

  function ParsePayload(p: bytes, names: Names): Option<Invite> {
    if |p| < FIXED + CHECKSUM || p[0] != VERSION then None
    else
      var content := p[..|p| - CHECKSUM];
      if Number(p[|p| - CHECKSUM..]) != Checksum(content) then None
      else
        var name := names(content[FIXED..]);
        if name != Some(content[FIXED..]) then None else Some(Invite(name.value, p[1..FIXED]))
  }

  function Parse(text: string, names: Names): Option<Invite> {
    if |text| > MAX_TEXT then None
    else
      var core := Core(text);
      if core == "" || '\r' in core || '\n' in core then None
      else
        var payload := Decode(core);
        if payload.None? || Encode(payload.value) != core then None else ParsePayload(payload.value, names)
  }

  lemma PayloadRoundTrip(i: Invite, names: Names)
    requires Valid(i, names)
    ensures ParsePayload(Payload(i), names) == Some(i)
  {
    var content := [VERSION] + i.seed + i.name;
    var p := Payload(i);
    assert p[..|p| - CHECKSUM] == content && p[|p| - CHECKSUM..] == BigEndian(Checksum(content), 2);
    Pow256Values();
    NumberOfBigEndian(Checksum(content), 2);
    assert content[FIXED..] == i.name && p[1..FIXED] == i.seed;
  }

  lemma PayloadParsesOnce(p: bytes, names: Names)
    requires ParsePayload(p, names).Some?
    ensures Payload(ParsePayload(p, names).value) == p && Valid(ParsePayload(p, names).value, names)
  {
    var i := ParsePayload(p, names).value;
    var content := p[..|p| - CHECKSUM];
    assert content == [VERSION] + i.seed + i.name;
    BigEndianOfNumber(p[|p| - CHECKSUM..]);
    assert p == content + p[|p| - CHECKSUM..];
  }

  // ----- the length -----

  lemma {:induction false} FiveBytesSevenDigits(k: nat)
    ensures Power(256, 5 * k) <= Power(58, 7 * k)
  {
    if k > 0 {
      FiveBytesSevenDigits(k - 1);
      PowerAdds(256, 5, 5 * (k - 1));
      PowerAdds(58, 7, 7 * (k - 1));
      FiveAndSeven();
      Products(Power(256, 5), Power(256, 5 * (k - 1)), Power(58, 7), Power(58, 7 * (k - 1)));
    }
  }

  lemma FiveAndSeven()
    ensures Power(256, 5) == 1099511627776 && Power(58, 7) == 2207984167552
  {
    assert Power(256, 3) == 16777216;
    assert Power(256, 5) == 256 * (256 * Power(256, 3));
    assert Power(58, 3) == 195112;
    assert Power(58, 5) == 58 * (58 * Power(58, 3));
    assert Power(58, 7) == 58 * (58 * Power(58, 5));
  }

  lemma Products(a: nat, b: nat, c: nat, d: nat)
    requires a <= c && b <= d
    ensures a * b <= c * d
  {
    assert a * b <= c * b <= c * d;
  }

  lemma {:induction false} PowerGrows(base: nat, m: nat, n: nat)
    requires base > 1 && m <= n
    ensures Power(base, m) <= Power(base, n)
  {
    if m < n {
      PowerGrows(base, m, n - 1);
    }
  }

  /** The text of a payload of n bytes has at most seven characters for every five bytes begun. */
  lemma EncodedSize(p: bytes, k: nat)
    requires |p| <= 5 * k && p != [] && p[0] != 0
    ensures |Encode(p)| <= 7 * k
  {
    var d := OfBytes(p);
    ConvertBack(d, 256, 58);
    ValueBound(d, 256);
    PowerGrows(256, |p|, 5 * k);
    FiveBytesSevenDigits(k);
    MinimalSize(Value(d, 256), 58, 7 * k);
    assert Leading(d) == 0;
  }

  // ----- trimming -----

  predicate NoSpace(s: string) {
    forall i :: 0 <= i < |s| ==> !IsSpace(s[i])
  }

  lemma TrimNothing(s: string)
    requires NoSpace(s)
    ensures TrimLeft(s) == s && TrimRight(s) == s
  {
  }

  lemma LegalHasNoSpace(s: string)
    requires Legal(s)
    ensures NoSpace(s) && '\r' !in s && '\n' !in s
  {
  }

  lemma EncodeIsLegal(p: bytes)
    ensures Legal(Encode(p))
  {
    ConvertBack(OfBytes(p), 256, 58);
  }

  lemma PrefixHasNoSpace()
    ensures NoSpace(PREFIX) && |PREFIX| == 12
  {
    assert PREFIX[0] == 'b' && PREFIX[1] == 'o' && PREFIX[2] == 'r' && PREFIX[3] == 'k' && PREFIX[4] == ':' && PREFIX[5] == '/';
    assert PREFIX[6] == '/' && PREFIX[7] == 'j' && PREFIX[8] == 'o' && PREFIX[9] == 'i' && PREFIX[10] == 'n' && PREFIX[11] == '/';
  }

  // ----- round trips -----

  /** Every valid invite survives encoding and parsing: its text is short enough, canonical, and checks. */
  lemma ParseEncode(i: Invite, names: Names)
    requires GoodNames(names) && Valid(i, names)
    ensures Parse(EncodeInvite(i), names) == Some(i)
  {
    hide Encode, Decode, ParsePayload, Checksum;
    var p, text := Payload(i), EncodeInvite(i);
    PayloadRoundTrip(i, names);
    assert names(i.name).Some?;
    EncodedSize(p, 59);
    EncodeIsLegal(p);
    LegalHasNoSpace(Encode(p));
    PrefixHasNoSpace();
    assert NoSpace(text);
    TrimNothing(text);
    assert Core(text) == Encode(p);
    DecodeEncode(p);
    EncodeDecode(Encode(p));
    NotEmpty(p);
  }

  lemma NotEmpty(p: bytes)
    requires Decode(Encode(p)).Some?
    ensures Encode(p) != ""
  {
    DecodesIffLegal(Encode(p));
  }

  /** A text that parses is, but for the space around it and the prefix, the one text of its invite; the check for
      canonical text is never what rejects. */
  lemma ParsedTextIsCanonical(text: string, names: Names)
    requires Parse(text, names).Some?
    ensures Valid(Parse(text, names).value, names)
    ensures Core(text) == Encode(Payload(Parse(text, names).value))
  {
    hide Encode, Decode, ParsePayload;
    PayloadParsesOnce(Decode(Core(text)).value, names);
  }

  lemma CanonicalCheckNeverRejects(core: string)
    ensures Decode(core).Some? ==> Encode(Decode(core).value) == core
  {
    if Decode(core).Some? {
      EncodeDecode(core);
    }
  }

  // ----- the code -----

  /** The checksum, bit by bit. */
  method InviteCRC16(content: bytes) returns (crc: Register)
    ensures crc == Crc(content)
  {
    crc := ONES;
    for i := 0 to |content|
      invariant crc == Crc(content[..i])
    {
      ghost var start := WithByte(crc, content[i]);
      crc := WithByte(crc, content[i]);
      for bit := 0 to 8
        invariant crc == Shift(start, bit)
      {
        crc := ShiftOnce(crc);
      }
      assert content[..i + 1][..i] == content[..i];
    }
    assert content[..|content|] == content;
  }
}
