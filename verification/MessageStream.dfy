/** The fragment numbering of a channel: every message queued on it occupies a contiguous range. */
module MessageStreams {
  import opened Bytes
  import opened Words
  import opened Transports

  datatype Piece = Piece(index: int, count: int, payload: bytes)

  /** The fragments of one message. */
  ghost function Pieces(message: bytes): seq<Piece> {
    var n := FragmentCount(|message|);
    seq(n, i requires 0 <= i < n => Piece(i, n, Part(message, i)))
  }

  /** All fragments of all messages, in order; sequence number n is entry n - 1. */
  ghost function Stream(messages: seq<bytes>): seq<Piece> {
    if messages == [] then []
    else Stream(messages[..|messages| - 1]) + Pieces(messages[|messages| - 1])
  }

  /** The number of fragments before message `k`. */
  ghost function Before(messages: seq<bytes>, k: nat): nat
    requires k <= |messages|
  {
    |Stream(messages[..k])|
  }

  /** Sequence number `sequence` carries this fragment. */
  ghost predicate Carries(messages: seq<bytes>, sequence: int, index: int, count: int, payload: bytes) {
    0 < sequence <= |Stream(messages)| && Stream(messages)[sequence - 1] == Piece(index, count, payload)
  }

  lemma {:induction false} StreamExtends(messages: seq<bytes>, k: nat)
    requires k <= |messages|
    ensures |Stream(messages[..k])| <= |Stream(messages)|
    ensures Stream(messages)[..|Stream(messages[..k])|] == Stream(messages[..k])
  {
    if k < |messages| {
      StreamExtends(messages[..|messages| - 1], k);
      assert messages[..|messages| - 1][..k] == messages[..k];
    } else {
      assert messages[..k] == messages;
    }
  }

  /** Queueing one more message renumbers nothing. */
  lemma CarriesMore(messages: seq<bytes>, more: bytes, sequence: int, index: int, count: int, payload: bytes)
    requires Carries(messages, sequence, index, count, payload)
    ensures Carries(messages + [more], sequence, index, count, payload)
  {
    assert (messages + [more])[..|messages|] == messages;
  }

  lemma BeforeNext(messages: seq<bytes>, k: nat)
    requires k < |messages|
    ensures Before(messages, k + 1) == Before(messages, k) + FragmentCount(|messages[k]|)
  {
    assert messages[..k + 1][..k] == messages[..k];
  }

  lemma BeforeMonotone(messages: seq<bytes>, j: nat, k: nat)
    requires j <= k <= |messages|
    ensures Before(messages, j) <= Before(messages, k)
  {
    assert messages[..k][..j] == messages[..j];
    StreamExtends(messages[..k], j);
  }

  lemma BeforeMore(messages: seq<bytes>, more: bytes, k: nat)
    requires k <= |messages|
    ensures Before(messages + [more], k) == Before(messages, k)
  {
    assert (messages + [more])[..k] == messages[..k];
  }

  /** Fragment `i` of message `k` sits right after the fragments before that message. */
  lemma MessageAt(messages: seq<bytes>, k: nat, i: nat)
    requires k < |messages| && i < FragmentCount(|messages[k]|)
    ensures Before(messages, k) + i < |Stream(messages)|
    ensures Stream(messages)[Before(messages, k) + i] == Pieces(messages[k])[i]
  {
    BeforeNext(messages, k);
    StreamExtends(messages, k + 1);
    assert messages[..k + 1][..k] == messages[..k];
    assert Stream(messages[..k + 1]) == Stream(messages[..k]) + Pieces(messages[k]);
    assert Stream(messages)[Before(messages, k) + i] == Stream(messages)[..Before(messages, k + 1)][Before(messages, k) + i];
  }

  /** Every sequence number lies in the range of exactly one message. */
  lemma {:induction false} Locate(messages: seq<bytes>, position: nat) returns (k: nat)
    requires position < |Stream(messages)|
    ensures k < |messages|
    ensures Before(messages, k) <= position < Before(messages, k) + FragmentCount(|messages[k]|)
    ensures Stream(messages)[position] == Pieces(messages[k])[position - Before(messages, k)]
    ensures forall j :: 0 <= j < |messages| && Before(messages, j) <= position < Before(messages, j) + FragmentCount(|messages[j]|) ==> j == k
  {
    var n := |messages| - 1;
    assert messages[..n + 1] == messages;
    if position < |Stream(messages[..n])| {
      k := Locate(messages[..n], position);
      assert messages[..n][..k] == messages[..k];
      MessageAt(messages, k, position - Before(messages, k));
    } else {
      k := n;
    }
    OnlyRange(messages, position, k);
  }

  lemma OnlyRange(messages: seq<bytes>, position: nat, k: nat)
    requires k < |messages| && Before(messages, k) <= position < Before(messages, k) + FragmentCount(|messages[k]|)
    ensures forall j :: 0 <= j < |messages| && Before(messages, j) <= position < Before(messages, j) + FragmentCount(|messages[j]|) ==> j == k
  {
    hide Before, FragmentCount;
    forall j | 0 <= j < |messages| && Before(messages, j) <= position < Before(messages, j) + FragmentCount(|messages[j]|)
      ensures j == k
    {
      RangesApart(messages, j, k);
      RangesApart(messages, k, j);
    }
  }

  lemma RangesApart(messages: seq<bytes>, j: nat, k: nat)
    requires j < |messages| && k < |messages|
    ensures j < k ==> Before(messages, j) + FragmentCount(|messages[j]|) <= Before(messages, k)
  {
    if j < k {
      BeforeNext(messages, j);
      BeforeMonotone(messages, j + 1, k);
    }
  }

  /** A fragment that names its index and count names its message too. */
  lemma MessageOf(messages: seq<bytes>, start: int, index: int, count: int, payload: bytes) returns (k: nat)
    requires index >= 0 && Carries(messages, start + index, index, count, payload)
    ensures k < |messages| && start == Before(messages, k) + 1
    ensures count == FragmentCount(|messages[k]|) && index < count && payload == Part(messages[k], index)
  {
    k := Locate(messages, start + index - 1);
  }

  /** Equal ranges are equal messages. */
  lemma SameStartSameMessage(messages: seq<bytes>, j: nat, k: nat)
    requires j < |messages| && k < |messages| && Before(messages, j) == Before(messages, k)
    requires messages[j] != [] && messages[k] != []
    ensures j == k
  {
    if j < k {
      BeforeNext(messages, j);
      BeforeMonotone(messages, j + 1, k);
    } else if k < j {
      BeforeNext(messages, k);
      BeforeMonotone(messages, k + 1, j);
    }
  }

  /** Joining the first `upTo` fragments gives back that much of the message. */
  lemma {:induction false} Joined(a: Assembly, message: bytes, upTo: nat)
    requires a.count == FragmentCount(|message|) && upTo <= a.count
    requires forall i: nat :: i < a.count ==> i in a.fragments && a.fragments[i] == Part(message, i)
    ensures Assembled(a, upTo) == message[..Min(upTo * MSS, |message|)]
  {
    hide Part, FragmentCount;
    if upTo > 0 {
      Joined(a, message, upTo - 1);
      assert a.fragments[upTo - 1] == Part(message, upTo - 1);
      PartExtends(message, upTo - 1);
    }
  }

  lemma PartExtends(message: bytes, i: nat)
    requires i < FragmentCount(|message|)
    ensures message[..Min(i * MSS, |message|)] + Part(message, i) == message[..Min((i + 1) * MSS, |message|)]
  {
    assert i * MSS <= |message|;
  }

  /** A complete assembly whose fragments all belong to one message is that message. */
  lemma CompleteIsMessage(a: Assembly, message: bytes)
    requires a.count == FragmentCount(|message|)
    requires forall i: nat :: i < a.count ==> i in a.fragments && a.fragments[i] == Part(message, i)
    ensures Assembled(a, a.count) == message
  {
    Joined(a, message, a.count);
    assert |message| <= FragmentCount(|message|) * MSS;
    assert message[..|message|] == message;
  }

  /** An assembly holding as many fragments as it needs, all with valid indexes, holds every one. */
  lemma CompleteHasAll(a: Assembly)
    requires Complete(a) && forall i :: i in a.fragments ==> i < a.count
    ensures forall i: nat :: i < a.count ==> i in a.fragments
  {
    FillsRange(a.fragments, a.count);
  }

  lemma {:induction false} FillsRange(m: map<uint16, bytes>, n: nat)
    requires forall i :: i in m ==> i < n
    ensures |m| <= n
    ensures |m| == n ==> forall i: nat :: i < n ==> i in m
  {
    if n == 0 {
      assert m.Keys == {};
    } else if n - 1 in m {
      FillsRange(m - {n - 1}, n - 1);
    } else {
      FillsRange(m, n - 1);
    }
  }
}
