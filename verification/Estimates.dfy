/** What the round-trip estimate and the congestion window do over a series of acknowledgments. */
module Estimates {
  import opened Words
  import opened Bytes
  import opened SequenceWindows
  import opened Transports
  import opened Accounting

  // ----- the round-trip estimate -----

  /** Between a tenth of a second and five seconds. */
  function Clamp(x: int): int {
    Min(Max(x, 100_000_000), 5_000_000_000)
  }

  function Abs(x: int): nat {
    if x < 0 then -x else x
  }

  ghost predicate Estimating(t: Transport) {
    t.srtt >= 0 && t.rttvar >= 0
  }

  /** The first sample is the estimate, with half of it as the variation; three times the sample, up to two nanoseconds of
      rounding, is how long to wait, within the limits. */
  lemma FirstSample(t: Transport, sample: nat)
    requires !t.haveRTT
    ensures var u := UpdateRTT(t, sample);
      && u.haveRTT && u.srtt == sample && 0 <= sample - 2 * u.rttvar <= 1
      && Clamp(3 * sample - 2) <= u.rto <= Clamp(3 * sample)
  {
  }

  /** A later sample moves the estimate an eighth of the way to it, and the variation a quarter of the way to how far the
      sample was from the estimate before, both to within the nanosecond that rounding down takes. */
  lemma LaterSample(t: Transport, sample: nat)
    requires t.haveRTT && Estimating(t)
    ensures var u := UpdateRTT(t, sample);
      && u.haveRTT && Estimating(u)
      && 0 <= (sample - t.srtt) - 8 * (u.srtt - t.srtt) < 8
      && 0 <= (Abs(sample - t.srtt) - t.rttvar) - 4 * (u.rttvar - t.rttvar) < 4
      && u.rto == Clamp(u.srtt + 4 * u.rttvar)
  {
  }

  function Power(b: nat, n: nat): nat {
    if n == 0 then 1 else b * Power(b, n - 1)
  }

  /** The estimate after `n` equal samples. */
  function Repeated(t: Transport, sample: nat, n: nat): Transport {
    if n == 0 then t else UpdateRTT(Repeated(t, sample, n - 1), sample)
  }

  /** Equal samples: after n of them the error of the estimate is (7/8)^n of what it was, never more than seven
      nanoseconds below that. */
  lemma {:induction false} ErrorShrinks(t: Transport, sample: nat, n: nat)
    requires t.haveRTT && Estimating(t)
    ensures var u := Repeated(t, sample, n);
      && u.haveRTT && Estimating(u)
      && -7 * Power(8, n) <= Power(8, n) * (u.srtt - sample) - Power(7, n) * (t.srtt - sample) <= 0
  {
    hide UpdateRTT;
    if n > 0 {
      ErrorShrinks(t, sample, n - 1);
      var before, u := Repeated(t, sample, n - 1), Repeated(t, sample, n);
      LaterSample(before, sample);
      ErrorStep(Power(8, n - 1), Power(7, n - 1), t.srtt - sample, before.srtt - sample, u.srtt - sample);
    }
  }

  lemma ErrorStep(c: nat, p: nat, first: int, before: int, after: int)
    requires -7 * c <= c * before - p * first <= 0
    requires 7 * before - 7 <= 8 * after <= 7 * before
    ensures -7 * (8 * c) <= (8 * c) * after - (7 * p) * first <= 0
  {
    Times(c, 7 * before - 7, 8 * after);
    Times(c, 8 * after, 7 * before);
    assert (8 * c) * after == c * (8 * after);
    assert c * (7 * before - 7) == 7 * (c * before) - 7 * c;
    assert c * (7 * before) == 7 * (c * before);
    assert (7 * p) * first == 7 * (p * first);
  }

  lemma Times(c: nat, x: int, y: int)
    requires x <= y
    ensures c * x <= c * y
  {
  }

  /** Eight to the n times the variation after n equal samples, rounding aside: what it was decays by a quarter each time,
      and the error of the estimate feeds into it while it lasts. */
  function Decayed(rttvar: nat, error: nat, n: nat): int {
    Power(6, n) * rttvar + 2 * error * (Power(7, n) - Power(6, n))
  }

  lemma DecayedNext(rttvar: nat, error: nat, n: nat)
    ensures Decayed(rttvar, error, n + 1) == 6 * Decayed(rttvar, error, n) + 2 * (Power(7, n) * error)
  {
    var six, seven := Power(6, n), Power(7, n);
    assert Power(6, n + 1) == 6 * six && Power(7, n + 1) == 7 * seven;
    assert (6 * six) * rttvar == 6 * (six * rttvar);
    assert 2 * error * (7 * seven - 6 * six) == 6 * (2 * error * (seven - six)) + 2 * (seven * error);
  }

  /** Equal samples: after n of them the variation is (3/4)^n of what it was plus twice the first error times
      (7/8)^n - (3/4)^n, never more than ten nanoseconds off. */
  lemma {:induction false} VariationDecays(t: Transport, sample: nat, n: nat)
    requires t.haveRTT && Estimating(t)
    ensures var u := Repeated(t, sample, n);
      -10 * Power(8, n) <= Power(8, n) * u.rttvar - Decayed(t.rttvar, Abs(sample - t.srtt), n) <= 7 * Power(8, n)
  {
    hide UpdateRTT, Decayed;
    if n == 0 {
      assert Decayed(t.rttvar, Abs(sample - t.srtt), 0) == t.rttvar by {
        DecayedFirst(t.rttvar, Abs(sample - t.srtt));
      }
    } else {
      VariationDecays(t, sample, n - 1);
      ErrorShrinks(t, sample, n - 1);
      var before, u := Repeated(t, sample, n - 1), Repeated(t, sample, n);
      LaterSample(before, sample);
      var first, error := Abs(sample - t.srtt), Abs(sample - before.srtt);
      AbsoluteError(Power(8, n - 1), Power(7, n - 1), t.srtt - sample, before.srtt - sample);
      DecayedNext(t.rttvar, first, n - 1);
      VariationStep(Power(8, n - 1), Power(7, n - 1) * first, Decayed(t.rttvar, first, n - 1), before.rttvar, error, u.rttvar);
    }
  }

  lemma DecayedFirst(rttvar: nat, error: nat)
    ensures Decayed(rttvar, error, 0) == rttvar
  {
  }

  lemma AbsoluteError(c: nat, p: nat, first: int, error: int)
    requires -7 * c <= c * error - p * first <= 0
    ensures -7 * c <= c * Abs(error) - p * Abs(first) <= 7 * c
  {
    assert c * -error == -(c * error) && p * -first == -(p * first);
    if error < 0 {
      Times(c, error, 0);
    } else {
      Times(c, 0, error);
    }
    if first < 0 {
      Times(p, first, 0);
    } else {
      Times(p, 0, first);
    }
  }

  lemma VariationStep(c: nat, fed: int, decayed: int, before: int, error: int, after: int)
    requires -10 * c <= c * before - decayed <= 7 * c
    requires -7 * c <= c * error - fed <= 7 * c
    requires 3 * before + error - 3 <= 4 * after <= 3 * before + error
    ensures -10 * (8 * c) <= (8 * c) * after - (6 * decayed + 2 * fed) <= 7 * (8 * c)
  {
    Times(c, 3 * before + error - 3, 4 * after);
    Times(c, 4 * after, 3 * before + error);
    assert (8 * c) * after == 2 * (c * (4 * after));
    assert c * (3 * before + error) == 3 * (c * before) + c * error;
    assert c * (3 * before + error - 3) == 3 * (c * before) + c * error - 3 * c;
  }

  // ----- which acknowledgments are sampled -----

  /** An acknowledgment that takes away only fragments sent more than once leaves the estimate as it is: whose arrival it
      reports cannot be told. */
  lemma ResentIsNotSampled(t: Transport, channel: uint16, base: uint64, bitmap: uint64, now: int)
    requires Inv(t)
    requires forall f :: f in t.outbound && AckedBy(f, channel, base, bitmap) ==> f.transmissions != 1
    ensures var u := ConsumeAck(t, channel, base, bitmap, now);
      u.srtt == t.srtt && u.rttvar == t.rttvar && u.rto == t.rto && u.haveRTT == t.haveRTT
  {
    AbsorbResent(t, t.outbound, channel, base, bitmap, now);
  }

  lemma {:induction false} AbsorbResent(t: Transport, fs: seq<Fragment>, channel: uint16, base: uint64, bitmap: uint64, now: int)
    requires forall f :: f in fs && AckedBy(f, channel, base, bitmap) ==> f.transmissions != 1
    ensures var u := Absorb(t, fs, channel, base, bitmap, now);
      u.srtt == t.srtt && u.rttvar == t.rttvar && u.rto == t.rto && u.haveRTT == t.haveRTT
  {
    hide AckedBy, UpdateRTT;
    if fs != [] {
      AbsorbResent(t, fs[..|fs| - 1], channel, base, bitmap, now);
    }
  }

  // ----- the congestion window -----

  /** An acknowledgment grows the window by the bytes that it takes out of the queue, and not at all if it takes none. */
  lemma GrowsByAcked(t: Transport, channel: uint16, base: uint64, bitmap: uint64, now: int)
    requires Inv(t)
    ensures var u := ConsumeAck(t, channel, base, bitmap, now);
      && u.queuedBytes <= t.queuedBytes
      && u.cwnd == (if u.queuedBytes == t.queuedBytes then t.cwnd else Grow(t.cwnd, t.ssthresh, t.queuedBytes - u.queuedBytes))
  {
    hide Absorb, Unacked, Grow, SenderInv, ReceiverInv, ChannelInv, FlightBytes;
    AbsorbFacts(t, t.outbound, channel, base, bitmap, now);
    UnackedSums(t.outbound, channel, base, bitmap);
  }

  function Sum(acks: seq<nat>): nat {
    if acks == [] then 0 else Sum(acks[..|acks| - 1]) + acks[|acks| - 1]
  }

  /** The window after a series of acknowledgments, each of that many bytes. */
  function WindowAfter(cwnd: int, ssthresh: int, acks: seq<nat>): int
    requires cwnd > 0
    ensures WindowAfter(cwnd, ssthresh, acks) >= Min(cwnd, MAXIMUM_CWND)
  {
    if acks == [] then cwnd else Grow(WindowAfter(cwnd, ssthresh, acks[..|acks| - 1]), ssthresh, acks[|acks| - 1])
  }

  /** Slow start: until the threshold is reached the window grows by exactly what is acknowledged, so that a window's worth
      doubles it, up to the limit of 64 segments. */
  lemma {:induction false} SlowStart(cwnd: int, ssthresh: int, acks: seq<nat>)
    requires 0 < cwnd <= MAXIMUM_CWND && ssthresh <= MAXIMUM_CWND
    requires acks != [] ==> cwnd + Sum(acks[..|acks| - 1]) < ssthresh
    ensures WindowAfter(cwnd, ssthresh, acks) == Min(cwnd + Sum(acks), MAXIMUM_CWND)
  {
    if acks != [] {
      var front := acks[..|acks| - 1];
      if front != [] {
        assert Sum(front) == Sum(front[..|front| - 1]) + front[|front| - 1];
      }
      SlowStart(cwnd, ssthresh, front);
    }
  }

  /** One acknowledgment above the threshold. */
  lemma AvoidanceStep(cwnd: int, ssthresh: int, acked: nat)
    requires 0 < cwnd <= MAXIMUM_CWND && ssthresh <= cwnd
    ensures var next := Grow(cwnd, ssthresh, acked);
      && cwnd <= next <= MAXIMUM_CWND
      && cwnd * (next - cwnd - 1) <= MSS * acked
      && (next < MAXIMUM_CWND ==> next > cwnd && MSS * acked <= cwnd * (next - cwnd + 1))
  {
    var step := Quotient(MSS * acked, cwnd);
    Times(cwnd, Grow(cwnd, ssthresh, acked) - cwnd - 1, step);
    if Grow(cwnd, ssthresh, acked) < MAXIMUM_CWND {
      Times(cwnd, step + 1, Grow(cwnd, ssthresh, acked) - cwnd + 1);
    }
  }

  lemma Quotient(x: nat, y: nat) returns (q: nat)
    requires y > 0
    ensures q == x / y && y * q <= x <= y * (q + 1)
  {
    q := x / y;
  }

  /** Congestion avoidance: a window's worth of acknowledgments adds at most one segment, and a byte for each of them. */
  lemma {:induction false} AvoidanceAtMost(cwnd: int, ssthresh: int, acks: seq<nat>)
    requires 0 < cwnd <= MAXIMUM_CWND && ssthresh <= cwnd
    ensures cwnd <= WindowAfter(cwnd, ssthresh, acks) <= MAXIMUM_CWND
    ensures cwnd * (WindowAfter(cwnd, ssthresh, acks) - cwnd - |acks|) <= MSS * Sum(acks)
    ensures Sum(acks) <= cwnd ==> WindowAfter(cwnd, ssthresh, acks) <= cwnd + MSS + |acks|
  {
    hide Grow;
    if acks != [] {
      var front, acked := acks[..|acks| - 1], acks[|acks| - 1];
      AvoidanceAtMost(cwnd, ssthresh, front);
      var before, after := WindowAfter(cwnd, ssthresh, front), WindowAfter(cwnd, ssthresh, acks);
      AvoidanceStep(before, ssthresh, acked);
      GainsAdd(cwnd, before, after, |front|, Sum(front), acked);
    }
    if Sum(acks) <= cwnd {
      AtMostOneSegment(cwnd, WindowAfter(cwnd, ssthresh, acks) - cwnd - |acks|, Sum(acks));
    }
  }

  lemma GainsAdd(cwnd: nat, before: nat, after: nat, n: nat, sum: nat, acked: nat)
    requires cwnd <= before <= after
    requires cwnd * (before - cwnd - n) <= MSS * sum && before * (after - before - 1) <= MSS * acked
    ensures cwnd * (after - cwnd - (n + 1)) <= MSS * (sum + acked)
  {
    if after > before {
      Times(after - before - 1, cwnd, before);
    }
    assert cwnd * (after - cwnd - (n + 1)) == cwnd * (before - cwnd - n) + cwnd * (after - before - 1);
  }

  lemma AtMostOneSegment(cwnd: nat, gain: int, sum: nat)
    requires cwnd > 0 && cwnd * gain <= MSS * sum && sum <= cwnd
    ensures gain <= MSS
  {
    Times(MSS, sum, cwnd);
    if gain > MSS {
      Times(cwnd, MSS + 1, gain);
    }
  }

  /** And, unless the limit of 64 segments is reached, at least that much less what rounding and the growth of the window
      meanwhile take. */
  lemma {:induction false} AvoidanceAtLeast(cwnd: int, ssthresh: int, acks: seq<nat>)
    requires 0 < cwnd <= MAXIMUM_CWND && ssthresh <= cwnd
    requires WindowAfter(cwnd, ssthresh, acks) < MAXIMUM_CWND
    ensures WindowAfter(cwnd, ssthresh, acks) >= cwnd + |acks|
    ensures MSS * Sum(acks) <= WindowAfter(cwnd, ssthresh, acks) * (WindowAfter(cwnd, ssthresh, acks) - cwnd + |acks|)
  {
    hide Grow;
    if acks != [] {
      var front, acked := acks[..|acks| - 1], acks[|acks| - 1];
      AvoidanceAtMost(cwnd, ssthresh, front);
      var before, after := WindowAfter(cwnd, ssthresh, front), WindowAfter(cwnd, ssthresh, acks);
      AvoidanceStep(before, ssthresh, acked);
      AvoidanceAtLeast(cwnd, ssthresh, front);
      LeastAdds(cwnd, before, after, |front|, Sum(front), acked);
    }
  }

  lemma LeastAdds(cwnd: nat, before: nat, after: nat, n: nat, sum: nat, acked: nat)
    requires cwnd <= before <= after
    requires MSS * sum <= before * (before - cwnd + n) && MSS * acked <= before * (after - before + 1)
    ensures MSS * (sum + acked) <= after * (after - cwnd + (n + 1))
  {
    assert before * (before - cwnd + n) + before * (after - before + 1) == before * (after - cwnd + (n + 1));
    Times(after - cwnd + (n + 1), before, after);
  }
}
