/** What a tracker answers, as the server writes it and as the client reads it. */
module TrackerResponses {
  import opened Options
  import opened Bytes
  import opened Decimals
  import opened Bencodes
  import opened Addresses

  const MAX_PEERS: nat := 50
  const MAX_RESPONSE: nat := 65536
  const MAX_FAILURE: nat := 1024
  const ANNOUNCE_INTERVAL: nat := 300
  const MAX_UINT32: nat := 0xFFFF_FFFF

  function Ascii(t: string): (b: bytes)
    requires forall i :: 0 <= i < |t| ==> t[i] < 128 as char
    ensures |b| == |t|
  {
    seq(|t|, i requires 0 <= i < |t| => t[i] as byte)
  }

  const FAILURE_REASON: bytes := Ascii("failure reason")
  const INTERVAL: bytes := Ascii("interval")
  const PEERS: bytes := Ascii("peers")
  const PEERS6: bytes := Ascii("peers6")
  const EXTERNAL_IP: bytes := Ascii("external ip")

  /** Which addresses are routable is a parameter. */
  predicate Usable(p: AddrPort, routable: bytes -> bool) {
    p.port != 0 && routable(Unmap(p.ip))
  }

  // ----- gathering peers -----

  /** Add a peer unless it is unusable or known, or there are enough. */
  function AppendUnique(peers: seq<AddrPort>, p: AddrPort, routable: bytes -> bool): seq<AddrPort> {
    if |peers| >= MAX_PEERS || !Usable(p, routable) || p in peers then peers else peers + [p]
  }

  function AppendAll(peers: seq<AddrPort>, more: seq<AddrPort>, routable: bytes -> bool): seq<AddrPort>
    decreases |more|
  {
    if more == [] then peers else AppendAll(AppendUnique(peers, more[0], routable), more[1..], routable)
  }

  /** New usable peers are all kept, in order, while there is room. */
  lemma {:induction false} AppendAllKeeps(peers: seq<AddrPort>, more: seq<AddrPort>, routable: bytes -> bool)
    requires |peers| + |more| <= MAX_PEERS
    requires forall i :: 0 <= i < |more| ==> Usable(more[i], routable) && more[i] !in peers
    requires forall i, j :: 0 <= i < j < |more| ==> more[i] != more[j]
    ensures AppendAll(peers, more, routable) == peers + more
    decreases |more|
  {
    if more != [] {
      AppendAllKeeps(peers + [more[0]], more[1..], routable);
      assert peers + more == peers + [more[0]] + more[1..];
    }
  }

  lemma {:induction false} AppendAllFull(peers: seq<AddrPort>, more: seq<AddrPort>, routable: bytes -> bool)
    requires |peers| >= MAX_PEERS
    ensures AppendAll(peers, more, routable) == peers
    decreases |more|
  {
    if more != [] {
      AppendAllFull(peers, more[1..], routable);
    }
  }

  /** Whatever is gathered, there are at most fifty peers, all usable and no two the same. */
  lemma {:induction false} AppendAllGood(peers: seq<AddrPort>, more: seq<AddrPort>, routable: bytes -> bool)
    requires |peers| <= MAX_PEERS
    requires forall i :: 0 <= i < |peers| ==> Usable(peers[i], routable)
    requires forall i, j :: 0 <= i < j < |peers| ==> peers[i] != peers[j]
    ensures var all := AppendAll(peers, more, routable);
      && peers <= all && |all| <= MAX_PEERS
      && (forall i :: 0 <= i < |all| ==> Usable(all[i], routable))
      && (forall i, j :: 0 <= i < j < |all| ==> all[i] != all[j])
    decreases |more|
  {
    if more != [] {
      AppendAllGood(AppendUnique(peers, more[0], routable), more[1..], routable);
    }
  }

  /** One peer from its compact form: an address and two bytes of port. */
  function Unpack(b: bytes): AddrPort
    requires |b| >= 2
  {
    AddrPort(Unmap(b[..|b| - 2]), Number(b[|b| - 2..]))
  }

  function UnpackAll(compact: bytes, size: nat): seq<AddrPort>
    requires size >= 2
  {
    if |compact| < size then [] else [Unpack(compact[..size])] + UnpackAll(compact[size..], size)
  }

  lemma WholeRecord(left: nat, size: nat)
    requires left > 0 && size in {6, 18} && left % size == 0
    ensures left >= size && (left - size) % size == 0
  {
  }

  lemma AppendStep(all: seq<AddrPort>, compact: bytes, offset: nat, size: nat, routable: bytes -> bool)
    requires size >= 2 && offset + size <= |compact|
    ensures AppendAll(all, UnpackAll(compact[offset..], size), routable)
         == AppendAll(AppendUnique(all, Unpack(compact[offset..offset + size]), routable), UnpackAll(compact[offset + size..], size), routable)
  {
    var peer, rest := Unpack(compact[offset..offset + size]), UnpackAll(compact[offset + size..], size);
    assert compact[offset..][..size] == compact[offset..offset + size];
    assert compact[offset..][size..] == compact[offset + size..];
    assert ([peer] + rest)[1..] == rest;
    assert UnpackAll(compact[offset..], size) == [peer] + rest;
  }

  lemma SeenStep(all: seq<AddrPort>, p: AddrPort)
    ensures (set q | q in all + [p]) == (set q | q in all) + {p}
  {
  }

  method AppendCompactPeers(known: seq<AddrPort>, seen: set<AddrPort>, compact: bytes, ipv6: bool, routable: bytes -> bool)
    returns (peers: Option<seq<AddrPort>>, nowSeen: set<AddrPort>)
    requires seen == (set p | p in known)
    ensures var size := if ipv6 then 18 else 6;
      peers == if |compact| % size != 0 then None else Some(AppendAll(known, UnpackAll(compact, size), routable))
    ensures peers.Some? ==> nowSeen == (set p | p in peers.value)
  {
    nowSeen := seen;
    var size := if ipv6 then 18 else 6;
    if |compact| % size != 0 {
      return None, seen;
    }
    var all, offset := known, 0;
    assert compact[0..] == compact;
    while offset < |compact| && |all| < MAX_PEERS
      invariant 0 <= offset <= |compact| && (|compact| - offset) % size == 0
      invariant nowSeen == (set p | p in all)
      invariant AppendAll(all, UnpackAll(compact[offset..], size), routable) == AppendAll(known, UnpackAll(compact, size), routable)
    {
      hide AppendAll, UnpackAll, Usable, Unpack;
      WholeRecord(|compact| - offset, size);
      var peer := Unpack(compact[offset..offset + size]);
      AppendStep(all, compact, offset, size, routable);
      SeenStep(all, peer);
      if Usable(peer, routable) && peer !in nowSeen {
        nowSeen := nowSeen + {peer};
        all := all + [peer];
      }
      offset := offset + size;
    }
    if offset < |compact| {
      AppendAllFull(all, UnpackAll(compact[offset..], size), routable);
    }
    return Some(all), nowSeen;
  }

  // ----- reading a response -----

  datatype Fields = Fields(failure: Option<bytes>, interval: Option<int>, compact4: bytes, compact6: bytes)

  const BLANK: Fields := Fields(None, None, [], [])

  datatype Reading = Malformed | PeerList | Read(fields: Fields, rest: bytes)

  /** The value of one key. Peers listed as dictionaries are not part of this model. */
  function ReadField(key: bytes, s: bytes, f: Fields): (r: Reading)
    ensures r.Read? ==> |r.rest| < |s|
  {
    if key == FAILURE_REASON then
      match ReadText(s)
      case Some(c) => if |c.value| > MAX_FAILURE then Malformed else Read(f.(failure := Some(c.value)), c.rest)
      case None => Malformed
    else if key == INTERVAL then
      match ReadNumber(s)
      case Some(c) => Read(f.(interval := Some(c.value)), c.rest)
      case None => Malformed
    else if key == PEERS then
      if s != [] && s[0] == LIST then PeerList
      else match ReadText(s)
        case Some(c) => Read(f.(compact4 := c.value), c.rest)
        case None => Malformed
    else if key == PEERS6 then
      match ReadText(s)
      case Some(c) => Read(f.(compact6 := c.value), c.rest)
      case None => Malformed
    else
      match Parse(s, 1)
      case Some(c) => Read(f, c.rest)
      case None => Malformed
  }

  function ReadFields(s: bytes, previous: Option<bytes>, f: Fields): Reading
    decreases |s|
  {
    if s == [] then Malformed
    else if s[0] == END then Read(f, s[1..])
    else
      match ReadText(s)
      case None => Malformed
      case Some(k) =>
        if !LegalKey(k.value, previous) then Malformed
        else
          var r := ReadField(k.value, k.rest, f);
          if r.Read? then ReadFields(r.rest, Some(k.value), r.fields) else r
  }

  datatype Response = Rejected | Listed | Failed(reason: bytes) | Accepted(interval: nat, peers: seq<AddrPort>)

  function Conclude(r: Reading, routable: bytes -> bool): Response {
    if r.Malformed? then Rejected
    else if r.PeerList? then Listed
    else if r.rest != [] || |r.fields.compact4| % 6 != 0 || |r.fields.compact6| % 18 != 0 then Rejected
    else if r.fields.failure.Some? then Failed(r.fields.failure.value)
    else if r.fields.interval.None? || !(0 < r.fields.interval.value <= MAX_UINT32) then Rejected
    else
      Accepted(r.fields.interval.value,
               AppendAll(AppendAll([], UnpackAll(r.fields.compact4, 6), routable), UnpackAll(r.fields.compact6, 18), routable))
  }

  function ParseResponse(packet: bytes, routable: bytes -> bool): Response {
    if packet == [] || |packet| > MAX_RESPONSE || packet[0] != TABLE then Rejected
    else Conclude(ReadFields(packet[1..], None, BLANK), routable)
  }

  /** Whatever a server sends, what is accepted is at most fifty usable peers, no two the same. */
  lemma AcceptedIsGood(packet: bytes, routable: bytes -> bool)
    ensures var r := ParseResponse(packet, routable);
      r.Accepted? ==>
        && 0 < r.interval <= MAX_UINT32 && |r.peers| <= MAX_PEERS
        && (forall i :: 0 <= i < |r.peers| ==> Usable(r.peers[i], routable))
        && (forall i, j :: 0 <= i < j < |r.peers| ==> r.peers[i] != r.peers[j])
  {
    hide ReadFields;
    if ParseResponse(packet, routable).Accepted? {
      var f := ReadFields(packet[1..], None, BLANK).fields;
      AppendAllGood([], UnpackAll(f.compact4, 6), routable);
      AppendAllGood(AppendAll([], UnpackAll(f.compact4, 6), routable), UnpackAll(f.compact6, 18), routable);
    }
  }

  // ----- the server -----

  predicate ValidPeer(p: AddrPort) {
    |p.ip| in {4, 16} && p.port < 0x1_0000
  }

  predicate ValidPeers(peers: seq<AddrPort>) {
    forall i :: 0 <= i < |peers| ==> ValidPeer(peers[i])
  }

  function Sized(peers: seq<AddrPort>, n: nat): seq<AddrPort> {
    if peers == [] then [] else (if |peers[0].ip| == n then [peers[0]] else []) + Sized(peers[1..], n)
  }

  function Compact(peers: seq<AddrPort>, n: nat): bytes
    requires ValidPeers(peers)
  {
    if peers == [] then []
    else (if |peers[0].ip| == n then peers[0].ip + [peers[0].port / 256, peers[0].port % 256] else []) + Compact(peers[1..], n)
  }

  function SuccessBody(externalIP: bytes, peers: seq<AddrPort>): bytes
    requires ValidPeers(peers)
  {
    Ascii("d11:external ip") + Bencoded(externalIP)
    + Ascii("8:intervali") + Decimal(ANNOUNCE_INTERVAL) + Ascii("e5:peers") + Bencoded(Compact(peers, 4))
    + Ascii("6:peers6") + Bencoded(Compact(peers, 16)) + Ascii("e")
  }

  function Unmapped(peers: seq<AddrPort>): seq<AddrPort> {
    seq(|peers|, i requires 0 <= i < |peers| => AddrPort(Unmap(peers[i].ip), peers[i].port))
  }

  lemma PortBytes(port: nat)
    requires port < 0x1_0000
    ensures Number([port / 256, port % 256]) == port
  {
    var b: bytes := [port / 256, port % 256];
    assert b[..1] == [b[0]];
    assert b[..1][..0] == [];
    assert Number(b[..1]) == Number(b[..1][..0]) * 256 + b[0];
    assert Number(b) == Number(b[..1]) * 256 + b[1];
  }

  lemma UnpackOne(p: AddrPort, rest: bytes, n: nat)
    requires |p.ip| == n && p.port < 0x1_0000
    ensures var one: bytes := p.ip + [p.port / 256, p.port % 256];
      UnpackAll(one + rest, n + 2) == [Unpack(one)] + UnpackAll(rest, n + 2) && Unpack(one) == AddrPort(Unmap(p.ip), p.port)
  {
    PortBytes(p.port);
    var one: bytes := p.ip + [p.port / 256, p.port % 256];
    assert (one + rest)[..n + 2] == one && (one + rest)[n + 2..] == rest;
    assert one[..n] == p.ip && one[n..] == [p.port / 256, p.port % 256];
  }

  lemma UnmappedMore(p: AddrPort, rest: seq<AddrPort>)
    ensures Unmapped([p] + rest) == [AddrPort(Unmap(p.ip), p.port)] + Unmapped(rest)
    ensures Unmapped([]) == []
  {
  }

  /** A compact list is read back as the peers of that size. */
  lemma {:induction false} UnpackCompact(peers: seq<AddrPort>, n: nat)
    requires ValidPeers(peers)
    ensures UnpackAll(Compact(peers, n), n + 2) == Unmapped(Sized(peers, n))
  {
    hide Number, Unmap, Unpack, Unmapped;
    if peers != [] {
      hide UnpackAll;
      assert ValidPeer(peers[0]);
      UnpackCompact(peers[1..], n);
      var rest := Compact(peers[1..], n);
      if |peers[0].ip| == n {
        UnpackOne(peers[0], rest, n);
        UnmappedMore(peers[0], Sized(peers[1..], n));
      } else {
        assert Compact(peers, n) == rest;
        assert Sized(peers, n) == Sized(peers[1..], n);
      }
    } else {
      UnmappedMore(AddrPort([], 0), []);
    }
  }

  lemma {:induction false} CompactSize(peers: seq<AddrPort>, n: nat)
    requires ValidPeers(peers)
    ensures |Compact(peers, n)| == (n + 2) * |Sized(peers, n)|
  {
    if peers != [] {
      assert ValidPeer(peers[0]);
      CompactSize(peers[1..], n);
      assert (n + 2) * (1 + |Sized(peers[1..], n)|) == (n + 2) + (n + 2) * |Sized(peers[1..], n)|;
    }
  }

  // ----- one field at a time -----

  lemma FieldStep(key: bytes, value: bytes, previous: Option<bytes>, f: Fields)
    requires LegalKey(key, previous)
    ensures var r := ReadField(key, value, f);
      ReadFields(Bencoded(key) + value, previous, f) == if r.Read? then ReadFields(r.rest, Some(key), r.fields) else r
  {
    hide ReadField, Bencoded, ReadText;
    ReadTextIff(Bencoded(key) + value, key, value);
    FirstByte(key);
  }

  lemma DigitWritten(n: nat)
    requires n < 10
    ensures Decimal(n) == [ZERO + n]
  {
    hide Decimal;
    ParseNatIff([ZERO + n], n);
    OneDigit(DigitsIn([ZERO + n]));
  }

  lemma ElevenWritten()
    ensures Decimal(11) == Ascii("11")
  {
    hide Decimal;
    ParseNatIff(Ascii("11"), 11);
    var d := DigitsIn(Ascii("11"));
    OneDigit(d[..1]);
    assert d == [1, 1];
  }

  /** The fixed parts of the body are the bencoded keys. */
  lemma Punctuation()
    ensures Ascii("d11:external ip") == [TABLE] + Bencoded(EXTERNAL_IP)
    ensures Ascii("8:intervali") == Bencoded(INTERVAL) + [INTEGER]
    ensures Ascii("e5:peers") == [END] + Bencoded(PEERS)
    ensures Ascii("6:peers6") == Bencoded(PEERS6)
    ensures Ascii("e") == [END]
  {
    hide Decimal;
    ElevenWritten();
    DigitWritten(8);
    DigitWritten(5);
    DigitWritten(6);
  }

  lemma KeysInOrder()
    ensures LegalKey(EXTERNAL_IP, None)
    ensures LegalKey(INTERVAL, Some(EXTERNAL_IP))
    ensures LegalKey(PEERS, Some(INTERVAL))
    ensures LegalKey(PEERS6, Some(PEERS))
  {
    assert EXTERNAL_IP[0] == 101 && INTERVAL[0] == 105 && PEERS[0] == 112 && PEERS6[0] == 112;
    PrefixBefore(PEERS, [54]);
    assert PEERS6 == PEERS + [54];
  }

  lemma {:induction false} PrefixBefore(a: bytes, more: bytes)
    requires more != []
    ensures Before(a, a + more)
  {
    if a != [] {
      PrefixBefore(a[1..], more);
      assert (a + more)[1..] == a[1..] + more;
    }
  }

  /** The body is the four fields in a dictionary. */
  lemma BodyIs(externalIP: bytes, peers: seq<AddrPort>)
    requires ValidPeers(peers)
    ensures SuccessBody(externalIP, peers) ==
      [TABLE] + (Bencoded(EXTERNAL_IP) + (Bencoded(externalIP)
      + (Bencoded(INTERVAL) + ([INTEGER] + Signed(ANNOUNCE_INTERVAL) + [END]
      + (Bencoded(PEERS) + (Bencoded(Compact(peers, 4))
      + (Bencoded(PEERS6) + (Bencoded(Compact(peers, 16)) + [END]))))))))
  {
    hide Bencoded, Decimal, Compact;
    Punctuation();
    assert Signed(ANNOUNCE_INTERVAL) == Decimal(ANNOUNCE_INTERVAL);
  }

  lemma FieldsOfBody(externalIP: bytes, c4: bytes, c6: bytes)
    requires |externalIP| <= MAX_STRING && |c4| <= MAX_STRING && |c6| <= MAX_STRING
    ensures ReadFields(Bencoded(EXTERNAL_IP) + (Bencoded(externalIP)
      + (Bencoded(INTERVAL) + ([INTEGER] + Signed(ANNOUNCE_INTERVAL) + [END]
      + (Bencoded(PEERS) + (Bencoded(c4)
      + (Bencoded(PEERS6) + (Bencoded(c6) + [END]))))))), None, BLANK)
      == Read(Fields(None, Some(ANNOUNCE_INTERVAL), c4, c6), [])
  {
    hide ReadFields, ReadText, ReadNumber, Parse, Bencoded, Signed, LegalKey;
    KeysInOrder();
    KeysDiffer();
    var end: bytes := [END];
    var s6 := Bencoded(c6) + end;
    var t6 := Bencoded(PEERS6) + s6;
    var s4 := Bencoded(c4) + t6;
    var t4 := Bencoded(PEERS) + s4;
    var si := [INTEGER] + Signed(ANNOUNCE_INTERVAL) + [END] + t4;
    var ti := Bencoded(INTERVAL) + si;
    var f1 := BLANK.(interval := Some(ANNOUNCE_INTERVAL));
    FieldStep(EXTERNAL_IP, Bencoded(externalIP) + ti, None, BLANK);
    ParseIff(Bencoded(externalIP) + ti, 1, Text(externalIP), ti);
    FieldStep(INTERVAL, si, Some(EXTERNAL_IP), BLANK);
    ReadNumberIff(si, ANNOUNCE_INTERVAL, t4);
    FieldStep(PEERS, s4, Some(INTERVAL), f1);
    ReadTextIff(s4, c4, t6);
    FirstByte(c4);
    FieldStep(PEERS6, s6, Some(PEERS), f1.(compact4 := c4));
    ReadTextIff(s6, c6, end);
    LastField(end, f1.(compact4 := c4, compact6 := c6));
  }

  lemma LastField(end: bytes, f: Fields)
    requires end == [END]
    ensures ReadFields(end, Some(PEERS6), f) == Read(f, [])
  {
  }

  lemma KeysDiffer()
    ensures EXTERNAL_IP !in {FAILURE_REASON, INTERVAL, PEERS, PEERS6}
    ensures INTERVAL != FAILURE_REASON && PEERS !in {FAILURE_REASON, INTERVAL} && PEERS6 !in {FAILURE_REASON, INTERVAL, PEERS}
  {
    assert EXTERNAL_IP[0] == 101 && INTERVAL[0] == 105 && PEERS[0] == 112 && PEERS6[0] == 112 && FAILURE_REASON[0] == 102;
  }

  lemma SomeBodyParses(externalIP: bytes, peers: seq<AddrPort>, routable: bytes -> bool)
    requires ValidPeers(peers) && |SuccessBody(externalIP, peers)| <= MAX_RESPONSE
    ensures ParseResponse(SuccessBody(externalIP, peers), routable) == Accepted(ANNOUNCE_INTERVAL,
      AppendAll(AppendAll([], Unmapped(Sized(peers, 4)), routable), Unmapped(Sized(peers, 16)), routable))
  {
    hide ReadFields, Bencoded, Signed;
    BodyIs(externalIP, peers);
    FieldsOfBody(externalIP, Compact(peers, 4), Compact(peers, 16));
    UnpackCompact(peers, 4);
    UnpackCompact(peers, 16);
    CompactSize(peers, 4);
    CompactSize(peers, 16);
    MultiplesDivide(6, |Sized(peers, 4)|);
    MultiplesDivide(18, |Sized(peers, 16)|);
    var body := SuccessBody(externalIP, peers);
    assert body[0] == TABLE;
  }

  /** A number below 10^19 has at most nineteen digits. */
  lemma DecimalIsShort(n: nat)
    requires n < 1_000_000
    ensures |Decimal(n)| <= 20
  {
    SignedIsShort(n);
  }

  /** What the server sends for fifty peers is far below the limit of the client. */
  lemma BodyIsShort(externalIP: bytes, peers: seq<AddrPort>)
    requires ValidPeers(peers) && |peers| <= MAX_PEERS && |externalIP| <= 16
    ensures |SuccessBody(externalIP, peers)| <= MAX_RESPONSE
  {
    hide Decimal, Compact, Sized;
    CompactSize(peers, 4);
    CompactSize(peers, 16);
    SizedOf(peers, 4);
    SizedOf(peers, 16);
    DecimalIsShort(|externalIP|);
    DecimalIsShort(|Compact(peers, 4)|);
    DecimalIsShort(|Compact(peers, 16)|);
    DecimalIsShort(ANNOUNCE_INTERVAL);
  }

  /** The client reads from the server's body the usable peers, each once, those with IPv4 addresses first. */
  lemma BodyParses(externalIP: bytes, peers: seq<AddrPort>, routable: bytes -> bool)
    requires ValidPeers(peers) && |peers| <= MAX_PEERS && |externalIP| <= 16
    ensures ParseResponse(SuccessBody(externalIP, peers), routable) == Accepted(ANNOUNCE_INTERVAL,
      AppendAll(AppendAll([], Unmapped(Sized(peers, 4)), routable), Unmapped(Sized(peers, 16)), routable))
  {
    hide ParseResponse, SuccessBody, AppendAll, Sized;
    BodyIsShort(externalIP, peers);
    SomeBodyParses(externalIP, peers, routable);
  }

  lemma MultiplesDivide(n: nat, k: nat)
    requires n in {6, 18}
    ensures (n * k) % n == 0
  {
  }

  lemma {:induction false} SizedOf(peers: seq<AddrPort>, n: nat)
    ensures |Sized(peers, n)| <= |peers|
    ensures forall i :: 0 <= i < |Sized(peers, n)| ==> Sized(peers, n)[i] in peers && |Sized(peers, n)[i].ip| == n
    ensures (forall i, j :: 0 <= i < j < |peers| ==> peers[i] != peers[j]) ==>
      forall i, j :: 0 <= i < j < |Sized(peers, n)| ==> Sized(peers, n)[i] != Sized(peers, n)[j]
  {
    if peers != [] {
      SizedOf(peers[1..], n);
    }
  }

  lemma {:induction false} SizedSplit(peers: seq<AddrPort>)
    requires ValidPeers(peers)
    ensures |Sized(peers, 4)| + |Sized(peers, 16)| == |peers|
  {
    if peers != [] {
      assert ValidPeer(peers[0]);
      SizedSplit(peers[1..]);
    }
  }

  /** Up to fifty distinct usable peers, none an IPv4 address in disguise, all arrive: IPv4 first, then IPv6, in order. */
  lemma BodyRoundTrip(externalIP: bytes, peers: seq<AddrPort>, routable: bytes -> bool)
    requires ValidPeers(peers) && |peers| <= MAX_PEERS && |externalIP| <= 16
    requires forall i, j :: 0 <= i < j < |peers| ==> peers[i] != peers[j]
    requires forall p :: p in peers ==> Usable(p, routable) && Unmap(p.ip) == p.ip
    ensures ParseResponse(SuccessBody(externalIP, peers), routable)
         == Accepted(ANNOUNCE_INTERVAL, Sized(peers, 4) + Sized(peers, 16))
  {
    hide SuccessBody, ParseResponse, ValidPeers, AppendAll, Sized, Usable;
    BodyParses(externalIP, peers, routable);
    SizedSplit(peers);
    SizedOf(peers, 4);
    SizedOf(peers, 16);
    KeepsBoth(Sized(peers, 4), Sized(peers, 16), peers, routable);
  }

  lemma KeepsBoth(v4: seq<AddrPort>, v6: seq<AddrPort>, peers: seq<AddrPort>, routable: bytes -> bool)
    requires |v4| + |v6| <= MAX_PEERS
    requires forall i :: 0 <= i < |v4| ==> v4[i] in peers && |v4[i].ip| == 4
    requires forall i :: 0 <= i < |v6| ==> v6[i] in peers && |v6[i].ip| == 16
    requires forall i, j :: 0 <= i < j < |v4| ==> v4[i] != v4[j]
    requires forall i, j :: 0 <= i < j < |v6| ==> v6[i] != v6[j]
    requires forall p :: p in peers ==> Usable(p, routable) && Unmap(p.ip) == p.ip
    ensures AppendAll(AppendAll([], Unmapped(v4), routable), Unmapped(v6), routable) == v4 + v6
  {
    hide AppendAll, Unmap, Usable;
    assert Unmapped(v4) == v4;
    assert Unmapped(v6) == v6;
    AppendAllKeeps([], v4, routable);
    assert [] + v4 == v4;
    AppendAllKeeps(v4, v6, routable);
  }

  // ----- the code -----

  method CompactPeers(peers: seq<AddrPort>, n: nat) returns (compact: bytes)
    requires ValidPeers(peers)
    ensures compact == Compact(peers, n)
  {
    compact := [];
    var i := 0;
    while i < |peers|
      invariant 0 <= i <= |peers|
      invariant compact + Compact(peers[i..], n) == Compact(peers, n)
    {
      var p := peers[i];
      assert ValidPeer(p);
      assert peers[i..][1..] == peers[i + 1..];
      if |p.ip| == n {
        compact := compact + (p.ip + [p.port / 256, p.port % 256]);
      }
      i := i + 1;
    }
    assert peers[i..] == [];
  }

  method ParseField(d: Decoder, key: bytes, f: Fields) returns (outcome: Reading)
    requires d.Valid()
    modifies d`pos
    ensures d.Valid()
    ensures outcome == ReadField(key, old(d.Left()), f)
    ensures outcome.Read? ==> outcome.rest == d.Left()
  {
    hide ReadText, ReadNumber, Parse;
    if key == FAILURE_REASON {
      var t := d.ParseRawString();
      return if t.None? || |t.value| > MAX_FAILURE then Malformed else Read(f.(failure := t), d.Left());
    } else if key == INTERVAL {
      var v := d.ParseRawInteger();
      return if v.None? then Malformed else Read(f.(interval := v), d.Left());
    } else if key == PEERS {
      if d.pos < |d.data| && d.data[d.pos] == LIST {
        return PeerList;
      }
      var t := d.ParseRawString();
      return if t.None? then Malformed else Read(f.(compact4 := t.value), d.Left());
    } else if key == PEERS6 {
      var t := d.ParseRawString();
      return if t.None? then Malformed else Read(f.(compact6 := t.value), d.Left());
    } else {
      var ok := d.SkipValue(1);
      return if !ok then Malformed else Read(f, d.Left());
    }
  }

  method ParseFields(d: Decoder) returns (outcome: Reading)
    requires d.Valid()
    modifies d`pos
    ensures d.Valid()
    ensures outcome == ReadFields(old(d.Left()), None, BLANK)
  {
    hide ReadText, ReadField, LegalKey;
    var previous: Option<bytes>, f := None, BLANK;
    while true
      invariant d.Valid()
      invariant ReadFields(d.Left(), previous, f) == ReadFields(old(d.Left()), None, BLANK)
      decreases |d.data| - d.pos
    {
      ghost var before := d.Left();
      if d.pos >= |d.data| {
        return Malformed;
      }
      if d.data[d.pos] == END {
        d.pos := d.pos + 1;
        return Read(f, d.Left());
      }
      var key := d.ParseRawString();
      if key.None? || !LegalKey(key.value, previous) {
        return Malformed;
      }
      assert |d.Left()| < |before|;
      outcome := ParseField(d, key.value, f);
      if !outcome.Read? {
        return;
      }
      previous, f := key, outcome.fields;
    }
  }

  method ParseHTTPAnnounceResponse(packet: bytes, routable: bytes -> bool) returns (r: Response)
    ensures r == ParseResponse(packet, routable)
  {
    hide ReadFields, UnpackAll, AppendAll;
    if |packet| == 0 || |packet| > MAX_RESPONSE || packet[0] != TABLE {
      return Rejected;
    }
    var d := new Decoder(packet);
    d.pos := 1;
    var read := ParseFields(d);
    if read.Malformed? {
      return Rejected;
    }
    if read.PeerList? {
      return Listed;
    }
    var f := read.fields;
    if read.rest != [] || |f.compact4| % 6 != 0 || |f.compact6| % 18 != 0 {
      return Rejected;
    }
    if f.failure.Some? {
      return Failed(f.failure.value);
    }
    if f.interval.None? || !(0 < f.interval.value <= MAX_UINT32) {
      return Rejected;
    }
    var v4, seen := AppendCompactPeers([], {}, f.compact4, false, routable);
    var all, _ := AppendCompactPeers(v4.value, seen, f.compact6, true, routable);
    return Accepted(f.interval.value, all.value);
  }
}
