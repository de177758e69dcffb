/** The checksum of invites against its published form: a byte at a time, and on the standard test vector. */
module InviteChecksums {
  import opened Bytes
  import opened Numerals
  import opened Invites

  /** The high byte, exclusive or itself shifted right by four. */
  function Folded(r: Register): (t: seq<bool>)
    ensures |t| == 8
  {
    [r[0], r[1], r[2], r[3], r[4] != r[0], r[5] != r[1], r[6] != r[2], r[7] != r[3]]
  }

  /** One byte at once: the low byte moves up, and the folded high byte comes in shifted by twelve, by five and by none,
      as the generator x^16 + x^12 + x^5 + 1 has it. */
  function ByteStep(r: Register): Register {
    var t := Folded(r);
    [r[8] != t[4], r[9] != t[5], r[10] != t[6], (r[11] != t[7]) != t[0], r[12] != t[1], r[13] != t[2], r[14] != t[3], r[15] != t[4],
     t[5] != t[0], t[6] != t[1], t[7] != t[2], t[3], t[4], t[5], t[6], t[7]]
  }

  lemma ShiftOnceIs(r: Register)
    ensures ShiftOnce(r) == [r[1], r[2], r[3], r[4] != r[0], r[5], r[6], r[7], r[8], r[9], r[10], r[11] != r[0], r[12], r[13], r[14], r[15], r[0]]
  {
  }

  /** Four shifts: the four bits that fall out come back at three places each. */
  function FourShifts(r: Register): Register {
    [r[4] != r[0], r[5] != r[1], r[6] != r[2], r[7] != r[3], r[8], r[9], r[10], r[11] != r[0],
     r[12] != r[1], r[13] != r[2], r[14] != r[3], r[15], r[0], r[1], r[2], r[3]]
  }

  lemma FourAtOnce(r: Register)
    ensures Shift(r, 4) == FourShifts(r)
  {
    hide ShiftOnce;
    assert Shift(r, 0) == r;
    ShiftOnceIs(Shift(r, 0));
    ShiftOnceIs(Shift(r, 1));
    ShiftOnceIs(Shift(r, 2));
    ShiftOnceIs(Shift(r, 3));
  }

  lemma {:induction false} ShiftAdds(r: Register, m: nat, n: nat)
    ensures Shift(r, m + n) == Shift(Shift(r, m), n)
  {
    if n > 0 {
      ShiftAdds(r, m, n - 1);
    }
  }

  /** Eight shifts, a bit at a time as the code does them, are one step of the byte form. */
  lemma ByteAtOnce(r: Register)
    ensures Shift(r, 8) == ByteStep(r)
  {
    hide ShiftOnce, Shift;
    ShiftAdds(r, 4, 4);
    FourAtOnce(r);
    FourAtOnce(Shift(r, 4));
    assert FourShifts(FourShifts(r)) == ByteStep(r);
  }

  lemma ByteFed(content: bytes, value: byte)
    ensures Crc(content + [value]) == ByteStep(WithByte(Crc(content), value))
  {
    ByteAtOnce(WithByte(Crc(content), value));
    assert (content + [value])[..|content|] == content;
  }

  /** Four bits of a register in hexadecimal. */
  function Nibble(n: nat): (b: seq<bool>)
    ensures |b| == 4
  {
    [n / 8 % 2 == 1, n / 4 % 2 == 1, n / 2 % 2 == 1, n % 2 == 1]
  }

  function Hex(a: nat, b: nat, c: nat, d: nat): Register {
    Nibble(a) + Nibble(b) + Nibble(c) + Nibble(d)
  }

  /** Feeding the byte of a digit, 48 more than the digit. */
  lemma DigitFed(content: bytes, digit: nat, before: Register, after: Register)
    requires digit < 10 && Crc(content) == before && after == ByteStep(Mixed(before, digit))
    ensures Crc(content + [48 + digit]) == after
  {
    hide ByteStep, Nibble, BitsOf, Crc;
    ByteFed(content, 48 + digit);
    DigitBits(digit);
    assert WithByte(before, 48 + digit) == Mixed(before, digit);
  }

  function Mixed(r: Register, digit: nat): Register {
    var b := Nibble(digit);
    [r[0], r[1], !r[2], !r[3], r[4] != b[0], r[5] != b[1], r[6] != b[2], r[7] != b[3]] + r[8..]
  }

  lemma DigitBits(digit: nat)
    requires digit < 10
    ensures BitsOf(48 + digit, 8) == [false, false, true, true] + Nibble(digit)
  {
    assert BitsOf(3, 4) == [false, false, true, true];
    assert BitsOf(6 + digit / 8, 5) == BitsOf(3, 4) + [digit / 8 % 2 == 1];
    assert BitsOf(12 + digit / 4, 6) == BitsOf(6 + digit / 8, 5) + [digit / 4 % 2 == 1];
    assert BitsOf(24 + digit / 2, 7) == BitsOf(12 + digit / 4, 6) + [digit / 2 % 2 == 1];
    assert BitsOf(48 + digit, 8) == BitsOf(24 + digit / 2, 7) + [digit % 2 == 1];
  }

  lemma One()
    ensures ByteStep(Mixed(Hex(15, 15, 15, 15), 1)) == Hex(12, 7, 8, 2)
  {
  }

  lemma Two()
    ensures ByteStep(Mixed(Hex(12, 7, 8, 2), 2)) == Hex(3, 13, 11, 10)
  {
  }

  lemma Three()
    ensures ByteStep(Mixed(Hex(3, 13, 11, 10), 3)) == Hex(5, 11, 12, 14)
  {
  }

  lemma Four()
    ensures ByteStep(Mixed(Hex(5, 11, 12, 14), 4)) == Hex(5, 3, 4, 9)
  {
  }

  lemma Five()
    ensures ByteStep(Mixed(Hex(5, 3, 4, 9), 5)) == Hex(4, 5, 6, 0)
  {
  }

  lemma Six()
    ensures ByteStep(Mixed(Hex(4, 5, 6, 0), 6)) == Hex(2, 14, 15, 4)
  {
  }

  lemma Seven()
    ensures ByteStep(Mixed(Hex(2, 14, 15, 4), 7)) == Hex(7, 7, 1, 8)
  {
  }

  lemma Eight()
    ensures ByteStep(Mixed(Hex(7, 7, 1, 8), 8)) == Hex(10, 1, 2, 11)
  {
  }

  lemma Nine()
    ensures ByteStep(Mixed(Hex(10, 1, 2, 11), 9)) == Hex(2, 9, 11, 1)
  {
  }

  lemma EmptyCrc()
    ensures Crc([]) == Hex(15, 15, 15, 15)
  {
  }

  /** The checksum of "123456789" is 0x29b1, as published for CRC-16/CCITT-FALSE. */
  lemma StandardVector()
    ensures Checksum([49, 50, 51, 52, 53, 54, 55, 56, 57]) == 0x29b1
  {
    hide Crc, Hex, ByteStep, Mixed;
    EmptyCrc();
    One();
    DigitFed([], 1, Hex(15, 15, 15, 15), Hex(12, 7, 8, 2));
    assert [] + [48 + 1] == [49];
    Two();
    DigitFed([49], 2, Hex(12, 7, 8, 2), Hex(3, 13, 11, 10));
    assert [49] + [48 + 2] == [49, 50];
    Three();
    DigitFed([49, 50], 3, Hex(3, 13, 11, 10), Hex(5, 11, 12, 14));
    assert [49, 50] + [48 + 3] == [49, 50, 51];
    Four();
    DigitFed([49, 50, 51], 4, Hex(5, 11, 12, 14), Hex(5, 3, 4, 9));
    assert [49, 50, 51] + [48 + 4] == [49, 50, 51, 52];
    Five();
    DigitFed([49, 50, 51, 52], 5, Hex(5, 3, 4, 9), Hex(4, 5, 6, 0));
    assert [49, 50, 51, 52] + [48 + 5] == [49, 50, 51, 52, 53];
    Six();
    DigitFed([49, 50, 51, 52, 53], 6, Hex(4, 5, 6, 0), Hex(2, 14, 15, 4));
    assert [49, 50, 51, 52, 53] + [48 + 6] == [49, 50, 51, 52, 53, 54];
    Seven();
    DigitFed([49, 50, 51, 52, 53, 54], 7, Hex(2, 14, 15, 4), Hex(7, 7, 1, 8));
    assert [49, 50, 51, 52, 53, 54] + [48 + 7] == [49, 50, 51, 52, 53, 54, 55];
    Eight();
    DigitFed([49, 50, 51, 52, 53, 54, 55], 8, Hex(7, 7, 1, 8), Hex(10, 1, 2, 11));
    assert [49, 50, 51, 52, 53, 54, 55] + [48 + 8] == [49, 50, 51, 52, 53, 54, 55, 56];
    Nine();
    DigitFed([49, 50, 51, 52, 53, 54, 55, 56], 9, Hex(10, 1, 2, 11), Hex(2, 9, 11, 1));
    assert [49, 50, 51, 52, 53, 54, 55, 56] + [48 + 9] == [49, 50, 51, 52, 53, 54, 55, 56, 57];
    HexNumber(2, 9, 11, 1);
  }

  lemma HexNumber(a: nat, b: nat, c: nat, d: nat)
    requires a < 16 && b < 16 && c < 16 && d < 16
    ensures NumberOfBits(Hex(a, b, c, d)) == ((a * 16 + b) * 16 + c) * 16 + d
  {
    hide Nibble;
    NibbleNumber([], a);
    NibbleNumber(Nibble(a), b);
    NibbleNumber(Nibble(a) + Nibble(b), c);
    NibbleNumber(Nibble(a) + Nibble(b) + Nibble(c), d);
    assert [] + Nibble(a) == Nibble(a);
  }

  lemma NibbleNumber(front: seq<bool>, n: nat)
    requires n < 16
    ensures NumberOfBits(front + Nibble(n)) == 16 * NumberOfBits(front) + n
  {
    hide NumberOfBits;
    FourLast(front, n / 8 % 2 == 1, n / 4 % 2 == 1, n / 2 % 2 == 1, n % 2 == 1);
  }

  lemma FourLast(front: seq<bool>, a: bool, b: bool, c: bool, d: bool)
    ensures NumberOfBits(front + [a, b, c, d])
         == 16 * NumberOfBits(front) + (if a then 8 else 0) + (if b then 4 else 0) + (if c then 2 else 0) + if d then 1 else 0
  {
    hide NumberOfBits;
    BitLast(front, a);
    BitLast(front + [a], b);
    BitLast(front + [a] + [b], c);
    BitLast(front + [a] + [b] + [c], d);
    assert front + [a, b, c, d] == front + [a] + [b] + [c] + [d];
  }

  lemma BitLast(front: seq<bool>, bit: bool)
    ensures NumberOfBits(front + [bit]) == 2 * NumberOfBits(front) + if bit then 1 else 0
  {
    assert (front + [bit])[..|front|] == front;
  }
}
