/** The topology message: where a peer can be reached, and whom it reaches directly. */
module TopologyMessages {
  import opened Options
  import opened Bytes
  import opened Addresses

  const MAX_COUNT: nat := 0xFFFF
  const NO_PEER: bytes := [0, 0, 0, 0, 0, 0, 0, 0, 0, 0, 0, 0, 0, 0, 0, 0]

  type PeerId = b: bytes | |b| == 16 witness NO_PEER

  datatype Neighbor = Neighbor(id: PeerId, addresses: seq<AddrPort>)

  datatype Message = Message(candidates: seq<AddrPort>, neighbors: seq<Neighbor>)

  function Plain(a: AddrPort): AddrPort {
    a.(ip := Unmap(a.ip))
  }

  function PlainAll(l: seq<AddrPort>): (r: seq<AddrPort>)
    ensures |r| == |l|
  {
    seq(|l|, i requires 0 <= i < |l| => Plain(l[i]))
  }

  function PlainNeighbors(l: seq<Neighbor>): (r: seq<Neighbor>)
    ensures |r| == |l|
  {
    seq(|l|, i requires 0 <= i < |l| => Neighbor(l[i].id, PlainAll(l[i].addresses)))
  }

  /** The same message with every IPv4 address in its short form. */
  function PlainMessage(m: Message): Message {
    Message(PlainAll(m.candidates), PlainNeighbors(m.neighbors))
  }

  // ----- what can be written -----

  predicate ValidAddress(a: AddrPort) {
    |a.ip| in {4, 16} && 0 < a.port < 0x1_0000
  }

  predicate ValidAddresses(l: seq<AddrPort>) {
    |l| <= MAX_COUNT && forall i :: 0 <= i < |l| ==> ValidAddress(l[i])
  }

  predicate ValidNeighbors(l: seq<Neighbor>) {
    forall i :: 0 <= i < |l| ==> l[i].id != NO_PEER && ValidAddresses(l[i].addresses)
  }

  predicate ValidMessage(m: Message) {
    ValidAddresses(m.candidates) && ValidNeighbors(m.neighbors)
  }

  function AddressBytes(a: AddrPort): (b: bytes)
    requires ValidAddress(a)
  {
    var ip := Unmap(a.ip);
    [if |ip| == 4 then 4 else 6] + BigEndian(a.port, 2) + ip
  }

  function AddressesBytes(l: seq<AddrPort>): bytes
    requires forall i :: 0 <= i < |l| ==> ValidAddress(l[i])
  {
    if l == [] then [] else AddressBytes(l[0]) + AddressesBytes(l[1..])
  }

  function NeighborBytes(n: Neighbor): bytes
    requires ValidAddresses(n.addresses)
  {
    n.id + BigEndian(|n.addresses|, 2) + AddressesBytes(n.addresses)
  }

  function NeighborsBytes(l: seq<Neighbor>): bytes
    requires ValidNeighbors(l)
  {
    if l == [] then [] else NeighborBytes(l[0]) + NeighborsBytes(l[1..])
  }

  function Encode(m: Message): Option<bytes> {
    if ValidMessage(m)
    then Some(BigEndian(|m.candidates|, 2) + AddressesBytes(m.candidates) + NeighborsBytes(m.neighbors))
    else None
  }

  // ----- reading -----

  function ReadAddress(s: bytes): (r: Option<Cut<AddrPort>>)
    ensures r.Some? ==> |r.value.rest| < |s|
  {
    if |s| < 3 || s[0] !in {4, 6} then None
    else
      var size, port := if s[0] == 4 then 4 else 16, Number(s[1..3]);
      if port == 0 || |s| - 3 < size then None
      else Some(Cut(AddrPort(Unmap(s[3..3 + size]), port), s[3 + size..]))
  }

  function ReadAddresses(s: bytes, n: nat): (r: Option<Cut<seq<AddrPort>>>)
    ensures r.Some? ==> |r.value.rest| <= |s| && |r.value.value| == n
    decreases n
  {
    if n == 0 then Some(Cut([], s))
    else
      match ReadAddress(s)
      case None => None
      case Some(a) =>
        match ReadAddresses(a.rest, n - 1)
        case None => None
        case Some(l) => Some(Cut([a.value] + l.value, l.rest))
  }

  function ReadNeighbor(s: bytes): (r: Option<Cut<Neighbor>>)
    ensures r.Some? ==> |r.value.rest| < |s|
  {
    if |s| < 18 || s[..16] == NO_PEER then None
    else
      match ReadAddresses(s[18..], Number(s[16..18]))
      case None => None
      case Some(l) => Some(Cut(Neighbor(s[..16], l.value), l.rest))
  }

  function ReadNeighbors(s: bytes): Option<seq<Neighbor>>
    decreases |s|
  {
    if s == [] then Some([])
    else
      match ReadNeighbor(s)
      case None => None
      case Some(n) =>
        match ReadNeighbors(n.rest)
        case None => None
        case Some(l) => Some([n.value] + l)
  }

  function Decode(payload: bytes): Option<Message> {
    if |payload| < 2 then None
    else
      match ReadAddresses(payload[2..], Number(payload[..2]))
      case None => None
      case Some(c) =>
        match ReadNeighbors(c.rest)
        case None => None
        case Some(l) => Some(Message(c.value, l))
  }

  // ----- what is written is read -----

  lemma TwoBytes(n: nat)
    requires n < 0x1_0000
    ensures Number(BigEndian(n, 2)) == n
  {
    Pow256Values();
    NumberOfBigEndian(n, 2);
  }

  lemma AddressRead(a: AddrPort, rest: bytes)
    requires ValidAddress(a)
    ensures ReadAddress(AddressBytes(a) + rest) == Some(Cut(Plain(a), rest))
  {
    hide Number, BigEndian;
    TwoBytes(a.port);
    var s, ip := AddressBytes(a) + rest, Unmap(a.ip);
    assert s[1..3] == BigEndian(a.port, 2);
    assert s[3..3 + |ip|] == ip;
    assert s[3 + |ip|..] == rest;
    UnmapOnce(a.ip);
  }

  lemma UnmapOnce(ip: bytes)
    ensures Unmap(Unmap(ip)) == Unmap(ip)
  {
  }

  lemma {:induction false} AddressesRead(l: seq<AddrPort>, rest: bytes)
    requires forall i :: 0 <= i < |l| ==> ValidAddress(l[i])
    ensures ReadAddresses(AddressesBytes(l) + rest, |l|) == Some(Cut(PlainAll(l), rest))
  {
    hide ReadAddress, AddressBytes, Plain;
    if l != [] {
      AddressRead(l[0], AddressesBytes(l[1..]) + rest);
      AddressesRead(l[1..], rest);
      assert AddressesBytes(l) + rest == AddressBytes(l[0]) + (AddressesBytes(l[1..]) + rest);
      assert PlainAll(l) == [Plain(l[0])] + PlainAll(l[1..]);
    } else {
      assert AddressesBytes(l) + rest == rest;
    }
  }

  lemma NeighborRead(n: Neighbor, rest: bytes)
    requires n.id != NO_PEER && ValidAddresses(n.addresses)
    ensures ReadNeighbor(NeighborBytes(n) + rest) == Some(Cut(Neighbor(n.id, PlainAll(n.addresses)), rest))
  {
    hide ReadAddresses, Number, BigEndian, AddressesBytes, PlainAll;
    var s := NeighborBytes(n) + rest;
    assert s[..16] == n.id;
    assert s[16..18] == BigEndian(|n.addresses|, 2);
    TwoBytes(|n.addresses|);
    assert s[18..] == AddressesBytes(n.addresses) + rest;
    AddressesRead(n.addresses, rest);
  }

  lemma {:induction false} NeighborsRead(l: seq<Neighbor>)
    requires ValidNeighbors(l)
    ensures ReadNeighbors(NeighborsBytes(l)) == Some(PlainNeighbors(l))
  {
    hide ReadNeighbor, NeighborBytes, PlainAll, ValidAddresses;
    if l != [] {
      NeighborRead(l[0], NeighborsBytes(l[1..]));
      NeighborsRead(l[1..]);
      assert NeighborBytes(l[0]) + NeighborsBytes(l[1..]) != [];
      assert PlainNeighbors(l) == [Neighbor(l[0].id, PlainAll(l[0].addresses))] + PlainNeighbors(l[1..]);
    }
  }

  /** Every message that is accepted for sending arrives, with its addresses in short form. */
  lemma MessageRoundTrip(m: Message)
    ensures Encode(m).Some? <==> ValidMessage(m)
    ensures Encode(m).Some? ==> Decode(Encode(m).value) == Some(PlainMessage(m))
  {
    hide ReadAddresses, ReadNeighbors, AddressesBytes, NeighborsBytes, Number, BigEndian;
    if ValidMessage(m) {
      var p := Encode(m).value;
      TwoBytes(|m.candidates|);
      assert p[..2] == BigEndian(|m.candidates|, 2);
      assert p[2..] == AddressesBytes(m.candidates) + NeighborsBytes(m.neighbors);
      AddressesRead(m.candidates, NeighborsBytes(m.neighbors));
      NeighborsRead(m.neighbors);
    }
  }

  // ----- what is read could have been written -----

  lemma TwoBytesRead(b: bytes)
    requires |b| == 2
    ensures Number(b) < 0x1_0000
    ensures BigEndian(Number(b), 2) == b
  {
    Pow256Values();
    BigEndianOfNumber(b);
  }

  /** One byte string is the shortest form of another: as long means the same. */
  predicate Shortens(short: bytes, long: bytes) {
    |short| <= |long| && (|short| == |long| ==> short == long)
  }

  lemma ShortensBoth(a: bytes, b: bytes, c: bytes, d: bytes)
    requires Shortens(a, b) && Shortens(c, d)
    ensures Shortens(a + c, b + d)
  {
  }

  lemma AddressWritten(s: bytes)
    requires ReadAddress(s).Some?
    ensures var c := ReadAddress(s).value;
      && ValidAddress(c.value) && Plain(c.value) == c.value && Shortens(AddressBytes(c.value) + c.rest, s)
  {
    hide Number, BigEndian;
    var c := ReadAddress(s).value;
    var size := if s[0] == 4 then 4 else 16;
    TwoBytesRead(s[1..3]);
    UnmapOnce(s[3..3 + size]);
    if Unmap(s[3..3 + size]) == s[3..3 + size] {
      assert AddressBytes(c.value) + c.rest == s;
    }
  }

  lemma {:induction false} AddressesWritten(s: bytes, n: nat)
    requires ReadAddresses(s, n).Some? && n <= MAX_COUNT
    ensures var c := ReadAddresses(s, n).value;
      && ValidAddresses(c.value) && PlainAll(c.value) == c.value && Shortens(AddressesBytes(c.value) + c.rest, s)
    decreases n
  {
    hide ReadAddress, AddressBytes, Plain, ValidAddress;
    var c := ReadAddresses(s, n).value;
    if n > 0 {
      var a := ReadAddress(s).value;
      AddressWritten(s);
      AddressesWritten(a.rest, n - 1);
      var l := ReadAddresses(a.rest, n - 1).value;
      assert PlainAll(c.value) == [Plain(a.value)] + PlainAll(l.value);
      AddressesBytesMore(a.value, l.value);
      ShortensBoth(AddressBytes(a.value), AddressBytes(a.value), AddressesBytes(l.value) + l.rest, a.rest);
      assert AddressesBytes(c.value) + c.rest == AddressBytes(a.value) + (AddressesBytes(l.value) + l.rest);
    }
  }

  lemma AddressesBytesMore(a: AddrPort, l: seq<AddrPort>)
    requires ValidAddress(a) && forall i :: 0 <= i < |l| ==> ValidAddress(l[i])
    ensures AddressesBytes([a] + l) == AddressBytes(a) + AddressesBytes(l)
  {
    assert ([a] + l)[1..] == l;
  }

  lemma NeighborWritten(s: bytes)
    requires ReadNeighbor(s).Some?
    ensures var c := ReadNeighbor(s).value;
      && c.value.id != NO_PEER && ValidAddresses(c.value.addresses) && PlainAll(c.value.addresses) == c.value.addresses
      && Shortens(NeighborBytes(c.value) + c.rest, s)
  {
    hide ReadAddresses, Number, BigEndian, AddressesBytes, PlainAll, ValidAddress;
    var c := ReadNeighbor(s).value;
    TwoBytesRead(s[16..18]);
    AddressesWritten(s[18..], Number(s[16..18]));
    ShortensBoth(s[..18], s[..18], AddressesBytes(c.value.addresses) + c.rest, s[18..]);
    assert s[..18] == s[..16] + s[16..18];
    assert s == s[..18] + s[18..];
    assert NeighborBytes(c.value) + c.rest == s[..18] + (AddressesBytes(c.value.addresses) + c.rest);
  }

  lemma {:induction false} NeighborsWritten(s: bytes)
    requires ReadNeighbors(s).Some?
    ensures var l := ReadNeighbors(s).value;
      ValidNeighbors(l) && PlainNeighbors(l) == l && Shortens(NeighborsBytes(l), s)
    decreases |s|
  {
    hide ReadNeighbor, NeighborBytes, PlainAll, ValidAddresses;
    if s != [] {
      var n := ReadNeighbor(s).value;
      NeighborWritten(s);
      NeighborsWritten(n.rest);
      var l, rest := ReadNeighbors(s).value, ReadNeighbors(n.rest).value;
      assert l == [n.value] + rest && l[1..] == rest;
      assert PlainNeighbors(l) == [Neighbor(n.value.id, PlainAll(n.value.addresses))] + PlainNeighbors(rest);
      ShortensBoth(NeighborBytes(n.value), NeighborBytes(n.value), NeighborsBytes(rest), n.rest);
    }
  }

  /** Whatever decodes is a valid message in short form, and encoding it again gives the same bytes exactly when they are
      as many: only an IPv4 address sent in its long form makes a difference. */
  lemma DecodedIsWritten(payload: bytes)
    requires Decode(payload).Some?
    ensures var m := Decode(payload).value;
      && PlainMessage(m) == m && Encode(m).Some? && |Encode(m).value| <= |payload|
      && (Encode(m).value == payload <==> |Encode(m).value| == |payload|)
  {
    hide ReadAddresses, ReadNeighbors, AddressesBytes, NeighborsBytes, Number, BigEndian, PlainAll, PlainNeighbors;
    TwoBytesRead(payload[..2]);
    AddressesWritten(payload[2..], Number(payload[..2]));
    var m := Decode(payload).value;
    var c := ReadAddresses(payload[2..], Number(payload[..2])).value;
    NeighborsWritten(c.rest);
    ShortensBoth(AddressesBytes(m.candidates), AddressesBytes(m.candidates), NeighborsBytes(m.neighbors), c.rest);
    assert Encode(m).value == payload[..2] + (AddressesBytes(m.candidates) + NeighborsBytes(m.neighbors));
    assert payload == payload[..2] + payload[2..];
  }

  // ----- the code -----

  method AppendTopologyAddress(payload: bytes, address: AddrPort) returns (r: Option<bytes>)
    requires 0 <= address.port < 0x1_0000
    ensures r == if ValidAddress(address) then Some(payload + AddressBytes(address)) else None
  {
    var ip := Unmap(address.ip);
    if |address.ip| !in {4, 16} || address.port == 0 {
      return None;
    }
    var family: byte := 6;
    if |ip| == 4 {
      family := 4;
    }
    r := Some(payload + [family]);
    r := Some(r.value + BigEndian(address.port, 2));
    r := Some(r.value + ip);
    assert r.value == payload + AddressBytes(address);
  }

  lemma {:induction false} AddressesBytesEnd(l: seq<AddrPort>, a: AddrPort)
    requires ValidAddress(a) && forall i :: 0 <= i < |l| ==> ValidAddress(l[i])
    ensures AddressesBytes(l + [a]) == AddressesBytes(l) + AddressBytes(a)
  {
    hide AddressBytes, ValidAddress;
    if l == [] {
      AddressesBytesMore(a, []);
      assert [a] + [] == [a];
      assert l + [a] == [a];
    } else {
      AddressesBytesEnd(l[1..], a);
      assert (l + [a])[1..] == l[1..] + [a];
    }
  }

  method AppendAddresses(payload: bytes, l: seq<AddrPort>) returns (r: Option<bytes>)
    requires |l| <= MAX_COUNT && forall i :: 0 <= i < |l| ==> l[i].port < 0x1_0000
    ensures r == if ValidAddresses(l) then Some(payload + AddressesBytes(l)) else None
  {
    var all, i := payload, 0;
    while i < |l|
      invariant 0 <= i <= |l|
      invariant forall j :: 0 <= j < i ==> ValidAddress(l[..i][j])
      invariant all == payload + AddressesBytes(l[..i])
    {
      r := AppendTopologyAddress(all, l[i]);
      if r.None? {
        assert !ValidAddress(l[i]);
        return;
      }
      AddressesBytesEnd(l[..i], l[i]);
      assert l[..i] + [l[i]] == l[..i + 1];
      all, i := r.value, i + 1;
    }
    assert l[..i] == l;
    return Some(all);
  }

  lemma {:induction false} NeighborsBytesEnd(l: seq<Neighbor>, n: Neighbor)
    requires ValidNeighbors(l) && n.id != NO_PEER && ValidAddresses(n.addresses)
    ensures ValidNeighbors(l + [n]) && NeighborsBytes(l + [n]) == NeighborsBytes(l) + NeighborBytes(n)
  {
    hide NeighborBytes, ValidAddresses;
    if l == [] {
      assert l + [n] == [n];
      assert [n][1..] == [];
    } else {
      NeighborsBytesEnd(l[1..], n);
      assert (l + [n])[1..] == l[1..] + [n];
    }
  }

  predicate SixteenBitPorts(l: seq<AddrPort>) {
    forall i :: 0 <= i < |l| ==> l[i].port < 0x1_0000
  }

  method EncodeTopologyMessage(m: Message) returns (r: Option<bytes>)
    requires SixteenBitPorts(m.candidates)
    requires forall i :: 0 <= i < |m.neighbors| ==> SixteenBitPorts(m.neighbors[i].addresses)
    ensures r == Encode(m)
  {
    hide AddressesBytes, NeighborsBytes, BigEndian, NO_PEER;
    if |m.candidates| > MAX_COUNT {
      return None;
    }
    r := AppendAddresses(BigEndian(|m.candidates|, 2), m.candidates);
    if r.None? {
      return;
    }
    ghost var head := r.value;
    assert m.neighbors[..0] == [];
    NoNeighbors(head);
    var payload, i := r.value, 0;
    while i < |m.neighbors|
      invariant 0 <= i <= |m.neighbors|
      invariant ValidNeighbors(m.neighbors[..i])
      invariant payload == head + NeighborsBytes(m.neighbors[..i])
    {
      var n := m.neighbors[i];
      assert SixteenBitPorts(n.addresses);
      if n.id == NO_PEER || |n.addresses| > MAX_COUNT {
        return None;
      }
      ghost var before := payload;
      payload := payload + n.id + BigEndian(|n.addresses|, 2);
      r := AppendAddresses(payload, n.addresses);
      if r.None? {
        return;
      }
      payload := r.value;
      assert payload == before + NeighborBytes(n);
      NeighborsBytesEnd(m.neighbors[..i], n);
      assert m.neighbors[..i] + [n] == m.neighbors[..i + 1];
      i := i + 1;
    }
    assert m.neighbors[..i] == m.neighbors;
    return Some(payload);
  }

  lemma NoNeighbors(head: bytes)
    ensures ValidNeighbors([]) && head + NeighborsBytes([]) == head
  {
  }

  method ParseTopologyAddress(payload: bytes, offset: nat) returns (address: Option<AddrPort>, next: nat)
    requires offset <= |payload|
    ensures match ReadAddress(payload[offset..])
            case None => address == None
            case Some(c) => address == Some(c.value) && offset < next <= |payload| && payload[next..] == c.rest
  {
    if |payload| - offset < 3 {
      return None, offset;
    }
    var family := payload[offset];
    var port := Number(payload[offset + 1..offset + 3]);
    assert payload[offset..][1..3] == payload[offset + 1..offset + 3];
    next := offset + 3;
    var size := 0;
    if family == 4 {
      size := 4;
    } else if family == 6 {
      size := 16;
    } else {
      return None, next;
    }
    if port == 0 || |payload| - next < size {
      return None, next;
    }
    assert payload[offset..][3..3 + size] == payload[next..next + size];
    assert payload[offset..][3 + size..] == payload[next + size..];
    return Some(AddrPort(Unmap(payload[next..next + size]), port)), next + size;
  }

  method ParseAddresses(payload: bytes, offset: nat, count: nat) returns (l: Option<seq<AddrPort>>, next: nat)
    requires offset <= |payload|
    ensures match ReadAddresses(payload[offset..], count)
            case None => l == None
            case Some(c) => l == Some(c.value) && offset <= next <= |payload| && payload[next..] == c.rest
  {
    hide ReadAddress;
    var all, left := [], count;
    next := offset;
    while left > 0
      invariant 0 <= left <= count && offset <= next <= |payload|
      invariant ReadAddresses(payload[offset..], count).Some? <==> ReadAddresses(payload[next..], left).Some?
      invariant ReadAddresses(payload[next..], left).Some? ==>
        ReadAddresses(payload[offset..], count).value.value == all + ReadAddresses(payload[next..], left).value.value
        && ReadAddresses(payload[offset..], count).value.rest == ReadAddresses(payload[next..], left).value.rest
    {
      var address, after := ParseTopologyAddress(payload, next);
      if address.None? {
        return None, next;
      }
      all, left, next := all + [address.value], left - 1, after;
    }
    assert ReadAddresses(payload[next..], 0).value.value == [];
    assert all + [] == all;
    return Some(all), next;
  }

  method DecodeTopologyMessage(payload: bytes) returns (m: Option<Message>)
    ensures m == Decode(payload)
  {
    hide ReadAddresses, Number;
    if |payload| < 2 {
      return None;
    }
    var candidates, offset := ParseAddresses(payload, 2, Number(payload[0..2]));
    if candidates.None? {
      return None;
    }
    ghost var start := offset;
    var neighbors: seq<Neighbor> := [];
    while offset < |payload|
      invariant start <= offset <= |payload|
      invariant ReadNeighbors(payload[start..]).Some? <==> ReadNeighbors(payload[offset..]).Some?
      invariant ReadNeighbors(payload[offset..]).Some? ==>
        ReadNeighbors(payload[start..]).value == neighbors + ReadNeighbors(payload[offset..]).value
    {
      if |payload| - offset < 18 {
        return None;
      }
      var id: PeerId := payload[offset..offset + 16];
      if id == NO_PEER {
        return None;
      }
      var count := Number(payload[offset + 16..offset + 18]);
      var addresses, next := ParseAddresses(payload, offset + 18, count);
      NeighborAt(payload, offset);
      if addresses.None? {
        return None;
      }
      neighbors, offset := neighbors + [Neighbor(id, addresses.value)], next;
    }
    assert payload[offset..] == [];
    assert neighbors + [] == neighbors;
    return Some(Message(candidates.value, neighbors));
  }

  lemma NeighborAt(payload: bytes, offset: nat)
    requires offset + 18 <= |payload|
    ensures payload[offset..][..16] == payload[offset..offset + 16]
    ensures payload[offset..][16..18] == payload[offset + 16..offset + 18]
    ensures payload[offset..][18..] == payload[offset + 18..]
  {
  }
}
