/** The 64-entry receive window shared by packet replay protection and fragment acknowledgments. */
module SequenceWindows {
  import opened Words

  datatype Window = Window(highest: uint64, seen: uint64)

  const EMPTY_WINDOW := Window(0, 0)

  /** An acknowledgment (base, bitmap) names a sequence number. */
  predicate AckContains(base: uint64, bitmap: uint64, sequence: uint64) {
    if base == 0 || sequence == 0 || sequence > base then false
    else
      var delta := base - sequence;
      delta < 64 && Bit(bitmap, delta)
  }

  /** The acknowledgments a well-formed packet may carry. */
  predicate ValidAck(base: uint64, bitmap: uint64) {
    if base == 0 then bitmap == 0
    else if !Bit(bitmap, 0) then false
    else base >= 64 || bitmap / Pow2(base) == 0
  }

  predicate Has(w: Window, sequence: uint64) {
    AckContains(w.highest, w.seen, sequence)
  }

  /** One offer of a sequence number: the window afterwards and whether it was taken. */
  function Offer(w: Window, sequence: uint64): (Window, bool) {
    if sequence == 0 then (w, false)
    else if sequence > w.highest then
      var shift := sequence - w.highest;
      if shift >= 64 then (Window(sequence, 1), true)
      else (Window(sequence, SetBit(ShiftLeft(w.seen, shift), 0)), true)
    else
      var delta := w.highest - sequence;
      if delta >= 64 || Bit(w.seen, delta) then (w, false)
      else (w.(seen := SetBit(w.seen, delta)), true)
  }

  predicate Takes(w: Window, sequence: uint64) {
    Offer(w, sequence).1
  }

  /** The window is the 64-wide view of a set of accepted numbers. */
  ghost predicate Tracks(w: Window, accepted: set<uint64>) {
    && (w.highest == 0 <==> accepted == {})
    && (w.highest != 0 ==> w.highest in accepted)
    && (forall q :: q in accepted ==> 0 < q <= w.highest)
    && (forall d: nat :: Bit(w.seen, d) ==> d < 64 && d < w.highest && w.highest - d in accepted)
    && (forall d: nat :: d < 64 && d < w.highest && w.highest - d in accepted ==> Bit(w.seen, d))
  }

  lemma TracksEmpty()
    ensures Tracks(EMPTY_WINDOW, {})
  {
    forall d: nat
      ensures !Bit(0, d)
    {
      BitOfZero(d);
    }
  }

  lemma TracksHas(w: Window, accepted: set<uint64>, q: uint64)
    requires Tracks(w, accepted)
    ensures Has(w, q) <==> q in accepted && w.highest - q < 64
  {
    if 0 < q <= w.highest {
      assert w.highest - (w.highest - q) == q;
    }
  }

  /** An offer is taken exactly when the number is non-zero, new, and less than 64 behind the highest;
      the window then tracks the enlarged set. */
  lemma AcceptTracks(w: Window, accepted: set<uint64>, s: uint64)
    requires Tracks(w, accepted)
    ensures Takes(w, s) <==> s != 0 && s !in accepted && w.highest - s < 64
    ensures Tracks(Offer(w, s).0, if Takes(w, s) then accepted + {s} else accepted)
  {
    if s == 0 {
    } else if s > w.highest {
      AcceptAhead(w, accepted, s);
    } else {
      assert w.highest - (w.highest - s) == s;
      if Takes(w, s) {
        AcceptBehind(w, accepted, s);
      }
    }
  }

  lemma AcceptAhead(w: Window, accepted: set<uint64>, s: uint64)
    requires Tracks(w, accepted) && s > w.highest
    ensures Tracks(Offer(w, s).0, accepted + {s})
  {
    var next := Offer(w, s).0;
    var shift := s - w.highest;
    forall d: nat
      ensures Bit(next.seen, d) <==> d < 64 && d < s && s - d in accepted + {s}
    {
      if shift >= 64 {
        BitOfOne(d);
      } else {
        var moved := ShiftLeft(w.seen, shift);
        SetBitBit(moved, 0, d);
        if d >= 64 {
          Pow2Word();
          BitBound(moved, 64, d);
        } else {
          ShiftLeftBit(w.seen, shift, d);
          if d >= shift {
            assert s - d == w.highest - (d - shift);
          } else if d > 0 {
            assert s - d > w.highest;
          }
        }
      }
    }
  }

  lemma AcceptBehind(w: Window, accepted: set<uint64>, s: uint64)
    requires Tracks(w, accepted) && 0 < s <= w.highest && Takes(w, s)
    ensures Tracks(Offer(w, s).0, accepted + {s})
  {
    var next := Offer(w, s).0;
    var delta := w.highest - s;
    forall d: nat
      ensures Bit(next.seen, d) <==> d < 64 && d < w.highest && w.highest - d in accepted + {s}
    {
      SetBitBit(w.seen, delta, d);
      if w.highest - d == s {
        assert d == delta;
      }
    }
  }

  lemma SmallQuotient(x: nat, y: nat)
    requires x < y
    ensures x / y == 0
  {
  }

  /** Every acknowledgment read from a window that tracks a set of accepted numbers is well formed. */
  lemma TrackedAckIsValid(w: Window, accepted: set<uint64>)
    requires Tracks(w, accepted)
    ensures ValidAck(w.highest, w.seen)
  {
    forall d: nat | w.highest <= d
      ensures !Bit(w.seen, d)
    {
    }
    if w.highest == 0 {
      BitsBelow(w.seen, 0);
    } else {
      assert w.highest - 0 in accepted;
      assert Bit(w.seen, 0);
      if w.highest < 64 {
        BitsBelow(w.seen, w.highest);
        SmallQuotient(w.seen, Pow2(w.highest));
      }
    }
  }

  /** The numbers taken out of a sequence of offers, in order. */
  function Taken(w: Window, offers: seq<uint64>): seq<uint64>
    decreases |offers|
  {
    if offers == [] then []
    else
      (if Takes(w, offers[0]) then [offers[0]] else []) + Taken(Offer(w, offers[0]).0, offers[1..])
  }

  function AfterOffers(w: Window, offers: seq<uint64>): Window
    decreases |offers|
  {
    if offers == [] then w else AfterOffers(Offer(w, offers[0]).0, offers[1..])
  }

  /** Over any run of offers no number is taken twice, nor one taken before the run. */
  lemma {:induction false} TakenOnce(w: Window, accepted: set<uint64>, offers: seq<uint64>)
    requires Tracks(w, accepted)
    ensures forall i, j :: 0 <= i < j < |Taken(w, offers)| ==> Taken(w, offers)[i] != Taken(w, offers)[j]
    ensures forall i :: 0 <= i < |Taken(w, offers)| ==> Taken(w, offers)[i] !in accepted
    ensures Tracks(AfterOffers(w, offers), accepted + set q | q in Taken(w, offers))
    decreases |offers|
  {
    if offers == [] {
      assert accepted + (set q | q in Taken(w, offers)) == accepted;
    } else {
      var s := offers[0];
      AcceptTracks(w, accepted, s);
      var next := if Takes(w, s) then accepted + {s} else accepted;
      var rest := Taken(Offer(w, s).0, offers[1..]);
      TakenOnce(Offer(w, s).0, next, offers[1..]);
      assert accepted + (set q | q in Taken(w, offers)) == next + set q | q in rest;
    }
  }

  /** The window as the object the source updates in place. */
  class SequenceWindow {
    var highest: uint64
    var seen: uint64

    constructor ()
      ensures Value() == EMPTY_WINDOW
    {
      highest, seen := 0, 0;
    }

    function Value(): Window
      reads this
    {
      Window(highest, seen)
    }

    method Accept(sequence: uint64) returns (accepted: bool)
      modifies this
      ensures (Value(), accepted) == Offer(old(Value()), sequence)
      ensures forall history :: Tracks(old(Value()), history) ==>
        (accepted <==> sequence != 0 && sequence !in history && old(highest) - sequence < 64)
    {
      ghost var before := Value();
      if sequence == 0 {
        accepted := false;
      } else if sequence > highest {
        var shift := sequence - highest;
        if shift >= 64 {
          seen := 1;
        } else {
          seen := SetBit(ShiftLeft(seen, shift), 0);
        }
        highest := sequence;
        accepted := true;
      } else {
        var delta := highest - sequence;
        if delta >= 64 {
          accepted := false;
        } else if Bit(seen, delta) {
          accepted := false;
        } else {
          seen := SetBit(seen, delta);
          accepted := true;
        }
      }
      forall history | Tracks(before, history)
        ensures accepted <==> sequence != 0 && sequence !in history && before.highest - sequence < 64
      {
        AcceptTracks(before, history, sequence);
      }
    }

    /** Asks on a copy, so the window itself is unchanged. */
    method MayAccept(sequence: uint64) returns (accepted: bool)
      ensures accepted == Takes(Value(), sequence)
    {
      var copy := new SequenceWindow();
      copy.highest, copy.seen := highest, seen;
      accepted := copy.Accept(sequence);
    }
  }
}
