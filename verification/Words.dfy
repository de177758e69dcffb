/** Unsigned 64-bit words as bounded integers, and the bits inside them.

    The source keeps its acknowledgment bitmaps in a uint64 and shifts them; here a word is an integer
    below two to the 64, a left shift drops the bits that leave the word, and `Bit` reads one bit. */
module Words {

  const WORD_SIZE := 0x1_0000_0000_0000_0000

  type uint64 = x: int | 0 <= x < WORD_SIZE
  type uint16 = x: int | 0 <= x < 0x1_0000

  const MAX_UINT64: uint64 := WORD_SIZE - 1

  function Pow2(n: nat): (p: nat)
    ensures p >= 1
  {
    if n == 0 then 1 else 2 * Pow2(n - 1)
  }

  lemma Pow2Word()
    ensures Pow2(64) == WORD_SIZE
  {
    assert Pow2(8) == 0x100;
    assert Pow2(16) == 0x1_0000;
    assert Pow2(24) == 0x100_0000;
    assert Pow2(32) == 0x1_0000_0000;
    assert Pow2(40) == 0x100_0000_0000;
    assert Pow2(48) == 0x1_0000_0000_0000;
    assert Pow2(56) == 0x100_0000_0000_0000;
  }

  /** Bit `d` of `x`. */
  predicate Bit(x: nat, d: nat) {
    if d == 0 then x % 2 == 1 else Bit(x / 2, d - 1)
  }

  /** `x << s` on a 64-bit word. */
  function ShiftLeft(x: uint64, s: nat): uint64 {
    (x * Pow2(s)) % WORD_SIZE
  }

  /** `x | 1 << d` on a 64-bit word. */
  function SetBit(x: uint64, d: nat): uint64
    requires d < 64
  {
    if Bit(x, d) then x else SetBitFits(x, d); x + Pow2(d)
  }

  lemma {:induction false} BitOfZero(d: nat)
    ensures !Bit(0, d)
  {
    if d > 0 {
      BitOfZero(d - 1);
    }
  }

  lemma {:induction false} BitOfOne(d: nat)
    ensures Bit(1, d) == (d == 0)
  {
    if d > 0 {
      BitOfZero(d - 1);
    }
  }

  /** A number below two to the n has no bit at or above n; the converse holds too. */
  lemma {:induction false} BitBound(x: nat, n: nat, d: nat)
    requires x < Pow2(n) && n <= d
    ensures !Bit(x, d)
  {
    if n == 0 {
      BitOfZero(d);
    } else {
      BitBound(x / 2, n - 1, d - 1);
    }
  }

  lemma {:induction false} BitsBelow(x: nat, n: nat)
    requires forall d :: n <= d ==> !Bit(x, d)
    ensures x < Pow2(n)
    decreases x, n
  {
    if n > 0 {
      forall d | n - 1 <= d
        ensures !Bit(x / 2, d)
      {
        assert !Bit(x, d + 1);
      }
      BitsBelow(x / 2, n - 1);
    } else if x > 0 {
      var d := HighBit(x);
      assert false;
    }
  }

  lemma {:induction false} HighBit(x: nat) returns (d: nat)
    requires x > 0
    ensures Bit(x, d)
  {
    if x % 2 == 1 {
      d := 0;
    } else {
      d := HighBit(x / 2);
      d := d + 1;
    }
  }

  /** Adding a multiple of two to the n leaves the bits below n alone. */
  lemma {:induction false} BitAddHigh(x: nat, k: nat, n: nat, d: nat)
    requires d < n
    ensures Bit(x + k * Pow2(n), d) == Bit(x, d)
  {
    var half := k * Pow2(n - 1);
    assert k * Pow2(n) == 2 * half;
    if d > 0 {
      assert (x + 2 * half) / 2 == x / 2 + half;
      BitAddHigh(x / 2, k, n - 1, d - 1);
    }
  }

  lemma {:induction false} BitTimesPow2(x: nat, s: nat, d: nat)
    ensures Bit(x * Pow2(s), d) == (d >= s && Bit(x, d - s))
  {
    if s > 0 {
      var y := x * Pow2(s - 1);
      assert x * Pow2(s) == 2 * y;
      if d > 0 {
        BitTimesPow2(x, s - 1, d - 1);
      }
    }
  }

  lemma ShiftLeftBit(x: uint64, s: nat, d: nat)
    requires d < 64
    ensures Bit(ShiftLeft(x, s), d) == (d >= s && Bit(x, d - s))
  {
    var y := x * Pow2(s);
    Pow2Word();
    BitAddHigh(y % WORD_SIZE, y / WORD_SIZE, 64, d);
    BitTimesPow2(x, s, d);
  }

  /** Adding a clear bit changes that bit only. */
  lemma {:induction false} BitAddClear(x: nat, d: nat, e: nat)
    requires !Bit(x, d)
    ensures Bit(x + Pow2(d), e) == (e == d || Bit(x, e))
  {
    if d == 0 {
      if e > 0 {
        assert (x + 1) / 2 == x / 2;
      }
    } else if e > 0 {
      assert (x + Pow2(d)) / 2 == x / 2 + Pow2(d - 1);
      BitAddClear(x / 2, d - 1, e - 1);
    } else {
      assert (x + Pow2(d)) % 2 == x % 2;
    }
  }

  lemma {:induction false} AddClearBound(x: nat, d: nat, n: nat)
    requires d < n && x < Pow2(n) && !Bit(x, d)
    ensures x + Pow2(d) < Pow2(n)
  {
    var h := Pow2(n - 1);
    assert Pow2(n) == 2 * h;
    if d == 0 {
      assert x % 2 == 0;
    } else {
      assert Pow2(d) == 2 * Pow2(d - 1);
      AddClearBound(x / 2, d - 1, n - 1);
      assert x / 2 + Pow2(d - 1) + 1 <= h;
    }
  }

  lemma SetBitFits(x: uint64, d: nat)
    requires d < 64 && !Bit(x, d)
    ensures x + Pow2(d) < WORD_SIZE
  {
    Pow2Word();
    AddClearBound(x, d, 64);
  }

  lemma SetBitBit(x: uint64, d: nat, e: nat)
    requires d < 64
    ensures Bit(SetBit(x, d), e) == (e == d || Bit(x, e))
  {
    if !Bit(x, d) {
      BitAddClear(x, d, e);
    }
  }
}
