/** Decimal numbers as text, in the one form that is accepted. */
module Decimals {
  import opened Options
  import opened Bytes
  import opened Remainders
  import opened Numerals

  const ZERO: byte := 48
  const MINUS: byte := 45

  predicate IsDigit(b: byte) {
    ZERO <= b < ZERO + 10
  }

  function Written(d: seq<nat>): (t: bytes)
    requires Digits(d, 10)
    ensures |t| == |d|
  {
    seq(|d|, i requires 0 <= i < |d| => (ZERO + d[i]) as byte)
  }

  function DigitsIn(t: bytes): (d: seq<nat>)
    requires forall i :: 0 <= i < |t| ==> IsDigit(t[i])
    ensures |d| == |t| && Digits(d, 10)
  {
    seq(|t|, i requires 0 <= i < |t| && IsDigit(t[i]) => (t[i] - ZERO) as nat)
  }

  /** Without leading zeroes, and never empty. */
  function Decimal(n: nat): bytes {
    if n == 0 then [ZERO] else Written(Minimal(n, 10))
  }

  /** The number written, unless it is empty, has a leading zero or something other than digits. */
  function ParseNat(t: bytes): Option<nat> {
    if t == [] || !(forall i :: 0 <= i < |t| ==> IsDigit(t[i])) || (|t| > 1 && t[0] == ZERO) then None
    else Some(Value(DigitsIn(t), 10))
  }

  /** Each number is accepted in exactly one form. */
  lemma ParseNatIff(t: bytes, n: nat)
    ensures ParseNat(t) == Some(n) <==> t == Decimal(n)
  {
    hide Value, Minimal;
    if ParseNat(t) == Some(n) {
      var d := DigitsIn(t);
      if t[0] == ZERO {
        OneDigit(d);
        assert d == [0];
        assert t == [ZERO];
      } else {
        ValueMinimal(d, 10);
        assert Written(d) == t;
      }
    }
    if t == Decimal(n) {
      MinimalValue(n, 10);
      if n == 0 {
        OneDigit([0]);
        assert DigitsIn(t) == [0];
      } else {
        assert DigitsIn(t) == Minimal(n, 10);
      }
    }
  }

  lemma OneDigit(d: seq<nat>)
    requires |d| == 1
    ensures Value(d, 10) == d[0]
  {
    assert d[..0] == [];
    assert Value(d[..0], 10) == 0;
  }

  lemma DecimalIsDigits(n: nat)
    ensures Decimal(n) != []
    ensures forall i :: 0 <= i < |Decimal(n)| ==> IsDigit(Decimal(n)[i])
  {
    ParseNatIff(Decimal(n), n);
  }

  /** A signed number; there is no negative zero. */
  function Signed(v: int): bytes {
    if v < 0 then [MINUS] + Decimal(-v) else Decimal(v)
  }

  function ParseSigned(t: bytes): Option<int> {
    if t != [] && t[0] == MINUS then
      match ParseNat(t[1..])
      case Some(n) =>
        var v: int := n;
        if v == 0 then None else Some(-v)
      case None => None
    else
      match ParseNat(t)
      case Some(n) => Some(n)
      case None => None
  }

  lemma ParseSignedIff(t: bytes, v: int)
    ensures ParseSigned(t) == Some(v) <==> t == Signed(v)
  {
    hide ParseNat, Decimal;
    if t != [] && t[0] == MINUS {
      assert t == [MINUS] + t[1..];
      ParseNatIff(t[1..], if v < 0 then -v else v);
      assert Decimal(0) == [ZERO] by {
        ZeroWritten();
      }
      DecimalIsDigits(if v < 0 then -v else v);
    } else {
      ParseNatIff(t, if v < 0 then 0 else v);
    }
  }

  lemma ZeroWritten()
    ensures Decimal(0) == [ZERO]
  {
  }

  const INT64: int := 0x8000_0000_0000_0000

  lemma Power10()
    ensures Power(10, 19) == 10_000_000_000_000_000_000
  {
    assert Power(10, 5) == 100_000;
    assert Power(10, 10) == 10_000_000_000;
    assert Power(10, 15) == 1_000_000_000_000_000;
  }

  /** No 64-bit number is longer than twenty characters. */
  lemma SignedIsShort(v: int)
    requires -INT64 <= v < INT64
    ensures |Signed(v)| <= 20
  {
    hide Minimal;
    Power10();
    MinimalSize(if v < 0 then -v else v, 10, 19);
  }
}

/** Bencoded values and the reader that steps over them. */
module Bencodes {
  import opened Options
  import opened Bytes
  import opened Decimals

  const MAX_DEPTH: nat := 8
  const MAX_STRING: nat := 65536
  const MAX_KEY: nat := 128
  const INTEGER: byte := 105
  const LIST: byte := 108
  const TABLE: byte := 100
  const END: byte := 101
  const COLON: byte := 58

  datatype Value = Text(text: bytes) | Integer(number: int) | List(items: Items) | Table(entries: Entries)
  datatype Items = NoItems | Item(first: Value, others: Items)
  datatype Entries = NoEntries | Entry(key: bytes, value: Value, rest: Entries)

  function Bencoded(t: bytes): (b: bytes)
    ensures |b| >= |t| + 1
  {
    Decimal(|t|) + [COLON] + t
  }

  function Encode(v: Value): bytes {
    match v
    case Text(t) => Bencoded(t)
    case Integer(n) => [INTEGER] + Signed(n) + [END]
    case List(items) => [LIST] + EncodeItems(items)
    case Table(entries) => [TABLE] + EncodeEntries(entries)
  }

  function EncodeItems(l: Items): bytes {
    match l
    case NoItems => [END]
    case Item(v, others) => Encode(v) + EncodeItems(others)
  }

  function EncodeEntries(t: Entries): bytes {
    match t
    case NoEntries => [END]
    case Entry(key, v, rest) => Bencoded(key) + Encode(v) + EncodeEntries(rest)
  }

  // ----- which values are allowed -----

  /** Byte order. */
  predicate Before(a: bytes, b: bytes) {
    b != [] && (a == [] || a[0] < b[0] || (a[0] == b[0] && Before(a[1..], b[1..])))
  }

  predicate LegalKey(key: bytes, previous: Option<bytes>) {
    0 < |key| <= MAX_KEY && (previous.Some? ==> Before(previous.value, key))
  }

  /** Within the limits: nesting, string length, 64-bit integers, and strictly ordered keys. */
  predicate Legal(v: Value, depth: nat) {
    depth <= MAX_DEPTH &&
    match v
    case Text(t) => |t| <= MAX_STRING
    case Integer(n) => -INT64 <= n < INT64
    case List(items) => LegalItems(items, depth + 1)
    case Table(entries) => LegalEntries(entries, depth + 1, None)
  }

  predicate LegalItems(l: Items, depth: nat) {
    match l
    case NoItems => true
    case Item(v, others) => Legal(v, depth) && LegalItems(others, depth)
  }

  predicate LegalEntries(t: Entries, depth: nat, previous: Option<bytes>) {
    match t
    case NoEntries => true
    case Entry(key, v, rest) => LegalKey(key, previous) && Legal(v, depth) && LegalEntries(rest, depth, Some(key))
  }

  // ----- reading one value off the front -----

  function Find(s: bytes, b: byte): (n: Option<nat>)
    ensures n.Some? ==> n.value < |s| && s[n.value] == b
  {
    if s == [] then None
    else if s[0] == b then Some(0)
    else match Find(s[1..], b)
      case Some(n) => Some(n + 1)
      case None => None
  }

  lemma {:induction false} FindIff(s: bytes, b: byte, n: nat)
    ensures Find(s, b) == Some(n) <==> n < |s| && s[n] == b && b !in s[..n]
  {
    if s != [] && s[0] != b {
      if n > 0 {
        FindIff(s[1..], b, n - 1);
        assert n <= |s| ==> s[..n] == [s[0]] + s[1..][..n - 1];
      }
    } else if s != [] && n > 0 && n <= |s| {
      assert s[..n][0] == b;
    }
  }

  lemma {:induction false} FindNone(s: bytes, b: byte)
    ensures Find(s, b) == None <==> b !in s
  {
    if s != [] && s[0] != b {
      FindNone(s[1..], b);
    }
  }

  /** A string: its length, a colon, and that many bytes. */
  function ReadText(s: bytes): (r: Option<Cut<bytes>>)
    ensures r.Some? ==> |r.value.rest| < |s|
  {
    if s == [] || !IsDigit(s[0]) then None
    else
      match Find(s, COLON)
      case None => None
      case Some(n) =>
        match ParseNat(s[..n])
        case None => None
        case Some(length) =>
          if length > MAX_STRING || length > |s| - n - 1 then None
          else Some(Cut(s[n + 1..n + 1 + length], s[n + 1 + length..]))
  }

  lemma ReadTextIff(s: bytes, t: bytes, rest: bytes)
    ensures ReadText(s) == Some(Cut(t, rest)) <==> |t| <= MAX_STRING && s == Bencoded(t) + rest
  {
    hide Decimal, ParseNat;
    var d := Decimal(|t|);
    DecimalIsDigits(|t|);
    FindIff(s, COLON, |d|);
    if ReadText(s) == Some(Cut(t, rest)) {
      var n := Find(s, COLON).value;
      ParseNatIff(s[..n], |t|);
      assert s == s[..n] + [s[n]] + s[n + 1..n + 1 + |t|] + s[n + 1 + |t|..];
    }
    if s == Bencoded(t) + rest {
      assert s[..|d|] == d;
      assert s[0] == d[0];
      ParseNatIff(d, |t|);
      assert s[|d| + 1..|d| + 1 + |t|] == t;
      assert s[|d| + 1 + |t|..] == rest;
    }
  }

  /** An integer: i, the number, e. */
  function ReadNumber(s: bytes): (r: Option<Cut<int>>)
    ensures r.Some? ==> |r.value.rest| < |s|
  {
    if s == [] || s[0] != INTEGER then None
    else
      match Find(s[1..], END)
      case None => None
      case Some(n) =>
        match ParseSigned(s[1..][..n])
        case None => None
        case Some(v) => if -INT64 <= v < INT64 then Some(Cut(v, s[1..][n + 1..])) else None
  }

  lemma SignedHasNoEnd(v: int)
    ensures END !in Signed(v)
  {
    hide Decimal;
    DecimalIsDigits(if v < 0 then -v else v);
  }

  lemma ReadNumberIff(s: bytes, v: int, rest: bytes)
    ensures ReadNumber(s) == Some(Cut(v, rest)) <==> -INT64 <= v < INT64 && s == [INTEGER] + Signed(v) + [END] + rest
  {
    hide Signed, ParseSigned;
    var d := Signed(v);
    SignedHasNoEnd(v);
    if ReadNumber(s) == Some(Cut(v, rest)) {
      var n := Find(s[1..], END).value;
      ParseSignedIff(s[1..][..n], v);
      assert s[1..] == s[1..][..n] + [END] + s[1..][n + 1..];
    }
    if s == [INTEGER] + d + [END] + rest {
      assert s[1..] == d + [END] + rest;
      FindIff(s[1..], END, |d|);
      assert s[1..][..|d|] == d;
      ParseSignedIff(d, v);
      assert s[1..][|d| + 1..] == rest;
    }
  }

  function Parse(s: bytes, depth: nat): (r: Option<Cut<Value>>)
    ensures r.Some? ==> |r.value.rest| < |s|
    decreases |s|, 0
  {
    if depth > MAX_DEPTH || s == [] then None
    else if s[0] == INTEGER then
      match ReadNumber(s)
      case Some(c) => Some(Cut(Integer(c.value), c.rest))
      case None => None
    else if s[0] == LIST then
      match ParseItems(s[1..], depth + 1)
      case Some(c) => Some(Cut(List(c.value), c.rest))
      case None => None
    else if s[0] == TABLE then
      match ParseEntries(s[1..], depth + 1, None)
      case Some(c) => Some(Cut(Table(c.value), c.rest))
      case None => None
    else
      match ReadText(s)
      case Some(c) => Some(Cut(Text(c.value), c.rest))
      case None => None
  }

  function ParseItems(s: bytes, depth: nat): (r: Option<Cut<Items>>)
    ensures r.Some? ==> |r.value.rest| < |s|
    decreases |s|, 1
  {
    if s == [] then None
    else if s[0] == END then Some(Cut(NoItems, s[1..]))
    else
      match Parse(s, depth)
      case None => None
      case Some(v) =>
        match ParseItems(v.rest, depth)
        case None => None
        case Some(l) => Some(Cut(Item(v.value, l.value), l.rest))
  }

  function ParseEntries(s: bytes, depth: nat, previous: Option<bytes>): (r: Option<Cut<Entries>>)
    ensures r.Some? ==> |r.value.rest| < |s|
    decreases |s|, 1
  {
    if s == [] then None
    else if s[0] == END then Some(Cut(NoEntries, s[1..]))
    else if depth > MAX_DEPTH then None
    else
      match ReadText(s)
      case None => None
      case Some(k) =>
        if !LegalKey(k.value, previous) then None
        else
          match Parse(k.rest, depth)
          case None => None
          case Some(v) =>
            match ParseEntries(v.rest, depth, Some(k.value))
            case None => None
            case Some(t) => Some(Cut(Entry(k.value, v.value, t.value), t.rest))
  }

  // ----- one reading, the right one -----

  lemma FirstByte(t: bytes)
    ensures Bencoded(t) != [] && IsDigit(Bencoded(t)[0])
  {
    hide Decimal;
    DecimalIsDigits(|t|);
  }

  /** What is read is legal, and was written there. */
  lemma {:induction false} ParseSound(s: bytes, depth: nat)
    ensures Parse(s, depth).Some? ==>
      var c := Parse(s, depth).value; Legal(c.value, depth) && s == Encode(c.value) + c.rest
    decreases |s|, 0
  {
    hide ReadText, ReadNumber, Bencoded, Signed;
    if Parse(s, depth).Some? {
      var c := Parse(s, depth).value;
      if s[0] == INTEGER {
        ReadNumberIff(s, c.value.number, c.rest);
      } else if s[0] == LIST {
        ItemsSound(s[1..], depth + 1);
        assert s == [LIST] + s[1..];
      } else if s[0] == TABLE {
        EntriesSound(s[1..], depth + 1, None);
        assert s == [TABLE] + s[1..];
      } else {
        ReadTextIff(s, c.value.text, c.rest);
      }
    }
  }

  lemma {:induction false} ItemsSound(s: bytes, depth: nat)
    ensures ParseItems(s, depth).Some? ==>
      var c := ParseItems(s, depth).value; LegalItems(c.value, depth) && s == EncodeItems(c.value) + c.rest
    decreases |s|, 1
  {
    hide Parse, Encode, Legal;
    if ParseItems(s, depth).Some? {
      if s[0] == END {
        assert s == [END] + s[1..];
      } else {
        ParseSound(s, depth);
        ItemsSound(Parse(s, depth).value.rest, depth);
      }
    }
  }

  lemma {:induction false} EntriesSound(s: bytes, depth: nat, previous: Option<bytes>)
    ensures ParseEntries(s, depth, previous).Some? ==>
      var c := ParseEntries(s, depth, previous).value; LegalEntries(c.value, depth, previous) && s == EncodeEntries(c.value) + c.rest
    decreases |s|, 1
  {
    hide Parse, Encode, Legal, ReadText, Bencoded, LegalKey;
    if ParseEntries(s, depth, previous).Some? {
      if s[0] == END {
        assert s == [END] + s[1..];
      } else {
        var k := ReadText(s).value;
        ReadTextIff(s, k.value, k.rest);
        ParseSound(k.rest, depth);
        var v := Parse(k.rest, depth).value;
        EntriesSound(v.rest, depth, Some(k.value));
        var t := ParseEntries(v.rest, depth, Some(k.value)).value;
        assert s == Bencoded(k.value) + (Encode(v.value) + (EncodeEntries(t.value) + t.rest));
      }
    }
  }

  /** Every legal value is read back, whatever follows it. */
  lemma {:induction false} ParseComplete(v: Value, depth: nat, rest: bytes)
    requires Legal(v, depth)
    ensures Parse(Encode(v) + rest, depth) == Some(Cut(v, rest))
    decreases v
  {
    hide ReadText, ReadNumber, Bencoded, Signed;
    var s := Encode(v) + rest;
    match v
    case Text(t) =>
      FirstByte(t);
      ReadTextIff(s, t, rest);
    case Integer(n) =>
      ReadNumberIff(s, n, rest);
      assert s[0] == INTEGER;
    case List(items) =>
      ItemsComplete(items, depth + 1, rest);
      assert s[1..] == EncodeItems(items) + rest;
    case Table(entries) =>
      EntriesComplete(entries, depth + 1, None, rest);
      assert s[1..] == EncodeEntries(entries) + rest;
  }

  lemma NeverAnEnd(v: Value)
    ensures Encode(v) != [] && Encode(v)[0] != END
  {
    hide Bencoded, Signed;
    if v.Text? {
      FirstByte(v.text);
    }
  }

  lemma {:induction false} ItemsComplete(l: Items, depth: nat, rest: bytes)
    requires LegalItems(l, depth)
    ensures ParseItems(EncodeItems(l) + rest, depth) == Some(Cut(l, rest))
    decreases l
  {
    hide Parse, Encode, Legal;
    var s := EncodeItems(l) + rest;
    match l
    case NoItems =>
      assert s[1..] == rest;
    case Item(v, others) =>
      ParseComplete(v, depth, EncodeItems(others) + rest);
      ItemsComplete(others, depth, rest);
      NeverAnEnd(v);
      assert s == Encode(v) + (EncodeItems(others) + rest);
  }

  lemma {:induction false} EntriesComplete(t: Entries, depth: nat, previous: Option<bytes>, rest: bytes)
    requires LegalEntries(t, depth, previous)
    ensures ParseEntries(EncodeEntries(t) + rest, depth, previous) == Some(Cut(t, rest))
    decreases t
  {
    hide Parse, Encode, ReadText, Bencoded;
    var s := EncodeEntries(t) + rest;
    match t
    case NoEntries =>
      assert s[1..] == rest;
    case Entry(key, v, others) =>
      var after := EncodeEntries(others) + rest;
      assert s == Bencoded(key) + (Encode(v) + after);
      FirstByte(key);
      ReadTextIff(s, key, Encode(v) + after);
      ParseComplete(v, depth, after);
      EntriesComplete(others, depth, Some(key), rest);
  }

  /** A value is read exactly when a legal one is written there, and there is only one it can be. */
  lemma ParseIff(s: bytes, depth: nat, v: Value, rest: bytes)
    ensures Parse(s, depth) == Some(Cut(v, rest)) <==> Legal(v, depth) && s == Encode(v) + rest
  {
    hide Parse, Encode, Legal;
    ParseSound(s, depth);
    if Legal(v, depth) && s == Encode(v) + rest {
      ParseComplete(v, depth, rest);
    }
  }

  // ----- the reader -----

  class Decoder {
    const data: bytes
    var pos: nat

    constructor (data: bytes)
      ensures this.data == data && pos == 0
    {
      this.data, pos := data, 0;
    }

    predicate Valid()
      reads this`pos
    {
      pos <= |data|
    }

    /** What has not been read yet. */
    function Left(): bytes
      reads this`pos
      requires Valid()
    {
      data[pos..]
    }

    method IndexByte(b: byte) returns (n: Option<nat>)
      requires Valid()
      ensures n == Find(Left(), b)
    {
      var i := pos;
      while i < |data|
        invariant pos <= i <= |data|
        invariant b !in data[pos..i]
      {
        if data[i] == b {
          FindIff(Left(), b, i - pos);
          assert Left()[..i - pos] == data[pos..i];
          return Some(i - pos);
        }
        i := i + 1;
      }
      assert Left() == data[pos..i];
      FindNone(Left(), b);
      return None;
    }

    /** Read a string; on failure the position does not matter. */
    method ParseRawString() returns (t: Option<bytes>)
      requires Valid()
      modifies this`pos
      ensures Valid()
      ensures t.Some? <==> ReadText(old(Left())).Some?
      ensures t.Some? ==> ReadText(old(Left())) == Some(Cut(t.value, Left()))
    {
      hide Find, ParseNat;
      if pos >= |data| || !IsDigit(data[pos]) {
        return None;
      }
      var separator := IndexByte(COLON);
      if separator.None? {
        return None;
      }
      var encoded := data[pos..pos + separator.value];
      assert encoded == Left()[..separator.value];
      var length := ParseNat(encoded);
      if length.None? || length.value > MAX_STRING {
        return None;
      }
      pos := pos + separator.value + 1;
      if length.value > |data| - pos {
        return None;
      }
      t := Some(data[pos..pos + length.value]);
      ghost var n := separator.value;
      assert t.value == old(Left())[n + 1..n + 1 + length.value];
      assert data[pos + length.value..] == old(Left())[n + 1 + length.value..];
      pos := pos + length.value;
    }

    method ParseRawInteger() returns (v: Option<int>)
      requires Valid()
      modifies this`pos
      ensures Valid()
      ensures v.Some? <==> ReadNumber(old(Left())).Some?
      ensures v.Some? ==> ReadNumber(old(Left())) == Some(Cut(v.value, Left()))
    {
      hide Find, ParseSigned;
      if pos >= |data| || data[pos] != INTEGER {
        return None;
      }
      pos := pos + 1;
      assert Left() == old(Left())[1..];
      var separator := IndexByte(END);
      if separator.None? {
        return None;
      }
      var encoded := data[pos..pos + separator.value];
      assert encoded == Left()[..separator.value];
      v := ParseSigned(encoded);
      if v.Some? {
        ParseSignedIff(encoded, v.value);
        if -INT64 <= v.value < INT64 {
          SignedIsShort(v.value);
        }
      }
      if |encoded| > 20 || v.None? || !(-INT64 <= v.value < INT64) {
        return None;
      }
      pos := pos + separator.value + 1;
    }

    /** Step over one value. */
    method SkipValue(depth: nat) returns (ok: bool)
      requires Valid()
      modifies this`pos
      ensures Valid()
      ensures ok <==> Parse(old(Left()), depth).Some?
      ensures ok ==> Left() == Parse(old(Left()), depth).value.rest
      decreases |data| - pos, 0
    {
      hide ReadText, ReadNumber;
      if depth > MAX_DEPTH || pos >= |data| {
        return false;
      }
      if data[pos] == INTEGER {
        var v := ParseRawInteger();
        return v.Some?;
      } else if data[pos] == LIST {
        pos := pos + 1;
        assert Left() == old(Left())[1..];
        ok := SkipItems(depth + 1);
      } else if data[pos] == TABLE {
        pos := pos + 1;
        assert Left() == old(Left())[1..];
        ok := SkipEntries(depth + 1);
      } else {
        var t := ParseRawString();
        return t.Some?;
      }
    }

    method SkipItems(depth: nat) returns (ok: bool)
      requires Valid()
      modifies this`pos
      ensures Valid()
      ensures ok <==> ParseItems(old(Left()), depth).Some?
      ensures ok ==> Left() == ParseItems(old(Left()), depth).value.rest
      decreases |data| - pos, 1
    {
      hide Parse;
      while true
        invariant Valid() && pos >= old(pos)
        invariant ParseItems(old(Left()), depth).Some? <==> ParseItems(Left(), depth).Some?
        invariant ParseItems(Left(), depth).Some? ==>
          ParseItems(old(Left()), depth).value.rest == ParseItems(Left(), depth).value.rest
        decreases |data| - pos
      {
        if pos >= |data| {
          return false;
        }
        if data[pos] == END {
          pos := pos + 1;
          return true;
        }
        ghost var before := Left();
        var skipped := SkipValue(depth);
        if !skipped {
          return false;
        }
        assert |Left()| < |before|;
      }
    }

    method SkipEntries(depth: nat) returns (ok: bool)
      requires Valid()
      modifies this`pos
      ensures Valid()
      ensures ok <==> ParseEntries(old(Left()), depth, None).Some?
      ensures ok ==> Left() == ParseEntries(old(Left()), depth, None).value.rest
      decreases |data| - pos, 1
    {
      hide Parse, ReadText, LegalKey;
      var previous: Option<bytes> := None;
      while true
        invariant Valid() && pos >= old(pos)
        invariant ParseEntries(old(Left()), depth, None).Some? <==> ParseEntries(Left(), depth, previous).Some?
        invariant ParseEntries(Left(), depth, previous).Some? ==>
          ParseEntries(old(Left()), depth, None).value.rest == ParseEntries(Left(), depth, previous).value.rest
        decreases |data| - pos
      {
        if pos >= |data| {
          return false;
        }
        if data[pos] == END {
          pos := pos + 1;
          return true;
        }
        if depth > MAX_DEPTH {
          return false;
        }
        ghost var before := Left();
        var key := ParseRawString();
        if key.None? || !LegalKey(key.value, previous) {
          return false;
        }
        previous := key;
        var skipped := SkipValue(depth);
        if !skipped {
          return false;
        }
        assert |Left()| < |before|;
      }
    }
  }
}
