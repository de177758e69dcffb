/** Positional numerals and their conversion between bases. */
module Numerals {
  import opened Remainders

  predicate Digits(d: seq<nat>, base: nat) {
    forall i :: 0 <= i < |d| ==> d[i] < base
  }

  /** The number a string of digits denotes, most significant first. */
  function Value(d: seq<nat>, base: nat): nat {
    if d == [] then 0 else Value(d[..|d| - 1], base) * base + d[|d| - 1]
  }

  /** The digits of a number without leading zeroes; zero has none. */
  function Minimal(v: nat, base: nat): (d: seq<nat>)
    requires base > 1
    ensures Digits(d, base)
  {
    if v == 0 then [] else Minimal(Quotient(v, base), base) + [Remainder(v, base)]
  }

  function Zeroes(n: nat): (z: seq<nat>)
    ensures |z| == n && forall i :: 0 <= i < n ==> z[i] == 0
  {
    seq(n, _ => 0)
  }

  /** How many zeroes a string of digits begins with. */
  function Leading(d: seq<nat>): (n: nat)
    ensures n <= |d|
  {
    if d != [] && d[0] == 0 then 1 + Leading(d[1..]) else 0
  }

  lemma {:induction false} LeadingSplits(d: seq<nat>)
    ensures d == Zeroes(Leading(d)) + d[Leading(d)..]
    ensures Leading(d) < |d| ==> d[Leading(d)] != 0
  {
    if d != [] && d[0] == 0 {
      LeadingSplits(d[1..]);
      var n := Leading(d[1..]);
      assert d[1..][n..] == d[n + 1..];
      assert Zeroes(n + 1) == [0] + Zeroes(n);
      assert d == [0] + (Zeroes(n) + d[n + 1..]);
    }
  }

  lemma {:induction false} LeadingOf(n: nat, rest: seq<nat>)
    requires rest == [] || rest[0] != 0
    ensures Leading(Zeroes(n) + rest) == n
  {
    if n == 0 {
      assert Zeroes(0) + rest == rest;
    } else {
      LeadingOf(n - 1, rest);
      assert (Zeroes(n) + rest)[1..] == Zeroes(n - 1) + rest;
    }
  }

  lemma {:induction false} LeadingDoesNotCount(n: nat, rest: seq<nat>, base: nat)
    ensures Value(Zeroes(n) + rest, base) == Value(rest, base)
    decreases n + |rest|
  {
    var d := Zeroes(n) + rest;
    if rest != [] {
      LeadingDoesNotCount(n, rest[..|rest| - 1], base);
      assert d[..|d| - 1] == Zeroes(n) + rest[..|rest| - 1];
    } else if n > 0 {
      LeadingDoesNotCount(n - 1, [], base);
      assert d[..|d| - 1] == Zeroes(n - 1) + [];
      assert Value(d, base) == Value(d[..|d| - 1], base) * base + 0;
      assert Value([], base) == 0;
    } else {
      assert d == rest;
    }
  }

  lemma {:induction false} MinimalValue(v: nat, base: nat)
    requires base > 1
    ensures Value(Minimal(v, base), base) == v
    ensures if v > 0 then Minimal(v, base) != [] && Minimal(v, base)[0] != 0 else Minimal(v, base) == []
    decreases v
  {
    hide Quotient, Remainder;
    if v > 0 {
      var q, r := Quotient(v, base), Remainder(v, base);
      Divided(v, base);
      MinimalValue(q, base);
      LastDigit(v, base, q, r);
    }
  }

  lemma LastDigit(v: nat, base: nat, q: nat, r: nat)
    requires base > 1 && v > 0 && q == Quotient(v, base) && r == Remainder(v, base) && v == base * q + r
    requires Value(Minimal(q, base), base) == q && (q > 0 ==> Minimal(q, base) != [] && Minimal(q, base)[0] != 0)
    ensures Value(Minimal(v, base), base) == v
    ensures Minimal(v, base) != [] && Minimal(v, base)[0] != 0
  {
    hide Quotient, Remainder;
    var front := Minimal(q, base);
    var d := front + [r];
    assert Minimal(v, base) == d;
    assert d[..|d| - 1] == front;
    assert Value(d, base) == q * base + r;
  }

  lemma {:induction false} ValueMinimal(d: seq<nat>, base: nat)
    requires base > 1 && Digits(d, base) && (d == [] || d[0] != 0)
    ensures Minimal(Value(d, base), base) == d
    ensures d != [] ==> Value(d, base) > 0
    decreases |d|
  {
    hide Value, Minimal;
    if d != [] {
      var front, last := d[..|d| - 1], d[|d| - 1];
      assert front != [] ==> front[0] == d[0];
      ValueMinimal(front, base);
      ValueStep(d, base);
      NoDigits(base);
      MinimalStep(Value(front, base), last, base);
      assert d == front + [last];
    } else {
      NoDigits(base);
    }
  }

  lemma NoDigits(base: nat)
    requires base > 1
    ensures Value([], base) == 0 && Minimal(0, base) == []
  {
  }

  lemma ValueStep(d: seq<nat>, base: nat)
    requires d != []
    ensures Value(d, base) == base * Value(d[..|d| - 1], base) + d[|d| - 1]
  {
    Commutes(Value(d[..|d| - 1], base), base);
  }

  lemma Commutes(a: nat, b: nat)
    ensures a * b == b * a
  {
  }

  lemma MinimalStep(q: nat, r: nat, base: nat)
    requires base > 1 && r < base && (q > 0 || r > 0)
    ensures base * q + r > 0
    ensures Minimal(base * q + r, base) == Minimal(q, base) + [r]
  {
    hide Quotient, Remainder;
    assert q > 0 ==> base * q > 0;
    DividedOnce(base * q + r, base, q, r);
  }

  /** Leading zeroes are kept one for one, the rest is rewritten in the other base. */
  function Convert(d: seq<nat>, base: nat, other: nat): (r: seq<nat>)
    requires other > 1
  {
    Zeroes(Leading(d)) + Minimal(Value(d, base), other)
  }

  /** Converting to another base and back gives the same digits, leading zeroes included. */
  lemma ConvertBack(d: seq<nat>, base: nat, other: nat)
    requires base > 1 && other > 1 && Digits(d, base)
    ensures Digits(Convert(d, base, other), other)
    ensures Convert(Convert(d, base, other), other, base) == d
    ensures Convert(d, base, other) == [] <==> d == []
  {
    hide Value, Minimal, Leading;
    var n, rest := Leading(d), d[Leading(d)..];
    LeadingSplits(d);
    LeadingDoesNotCount(n, rest, base);
    var m := Minimal(Value(rest, base), other);
    MinimalValue(Value(rest, base), other);
    ValueMinimal(rest, base);
    LeadingOf(n, m);
    LeadingDoesNotCount(n, m, other);
    NoDigits(base);
  }

  function Power(base: nat, n: nat): (p: nat)
    requires base > 0
    ensures p > 0
  {
    if n == 0 then 1 else base * Power(base, n - 1)
  }

  lemma {:induction false} ValueBound(d: seq<nat>, base: nat)
    requires base > 1 && Digits(d, base)
    ensures Value(d, base) < Power(base, |d|)
    decreases |d|
  {
    if d != [] {
      ValueBound(d[..|d| - 1], base);
      var v, p := Value(d[..|d| - 1], base), Power(base, |d| - 1);
      DigitBound(v, p, base, d[|d| - 1]);
    }
  }

  lemma DigitBound(v: nat, p: nat, base: nat, r: nat)
    requires v < p && r < base
    ensures v * base + r < base * p
  {
    assert (v + 1) * base <= p * base;
    assert (v + 1) * base == v * base + base;
  }

  lemma {:induction false} MinimalSize(v: nat, base: nat, n: nat)
    requires base > 1 && v < Power(base, n)
    ensures |Minimal(v, base)| <= n
    decreases n
  {
    hide Quotient, Remainder;
    if v > 0 && n > 0 {
      Divided(v, base);
      QuotientBound(v, base, Quotient(v, base), Remainder(v, base), Power(base, n - 1));
      MinimalSize(Quotient(v, base), base, n - 1);
    }
  }

  lemma QuotientBound(v: nat, base: nat, q: nat, r: nat, p: nat)
    requires base > 1 && v == base * q + r && v < base * p
    ensures q < p
  {
    assert q >= p ==> base * q >= base * p;
  }
}

/** Base58 text, as invites use it. */
module Base58 {
  import opened Remainders
  import opened Options
  import opened Bytes
  import opened Numerals

  const ALPHABET: string := "123456789" + "ABCDEFGH" + "JKLMN" + "PQRSTUVWXYZ" + "abcdefghijk" + "mnopqrstuvwxyz"

  /** The place of a character in the alphabet: digits but 0, capitals but I and O, small letters but l. */
  function IndexOf(c: char): (r: Option<nat>)
    ensures r.Some? ==> r.value < 58
  {
    if '1' <= c <= '9' then Some((c - '1') as nat)
    else if 'A' <= c <= 'H' then Some(9 + (c - 'A') as nat)
    else if 'J' <= c <= 'N' then Some(17 + (c - 'J') as nat)
    else if 'P' <= c <= 'Z' then Some(22 + (c - 'P') as nat)
    else if 'a' <= c <= 'k' then Some(33 + (c - 'a') as nat)
    else if 'm' <= c <= 'z' then Some(44 + (c - 'm') as nat)
    else None
  }

  function Character(d: nat): (c: char)
    requires d < 58
    ensures IndexOf(c) == Some(d)
  {
    if d < 9 then '1' + d as char
    else if d < 17 then 'A' + (d - 9) as char
    else if d < 22 then 'J' + (d - 17) as char
    else if d < 33 then 'P' + (d - 22) as char
    else if d < 44 then 'a' + (d - 33) as char
    else 'm' + (d - 44) as char
  }

  lemma OneCharacter(c: char, e: char)
    requires IndexOf(c).Some? && IndexOf(c) == IndexOf(e)
    ensures c == e
  {
  }

  function Text(d: seq<nat>): (s: string)
    requires Digits(d, 58)
    ensures |s| == |d|
  {
    seq(|d|, i requires 0 <= i < |d| => Character(d[i]))
  }

  predicate Legal(s: string) {
    forall i :: 0 <= i < |s| ==> IndexOf(s[i]).Some?
  }

  function DigitsOf(s: string): (d: seq<nat>)
    requires Legal(s)
    ensures |d| == |s| && Digits(d, 58)
  {
    seq(|s|, i requires 0 <= i < |s| => IndexOf(s[i]).value)
  }

  function ToBytes(d: seq<nat>): (b: bytes)
    requires Digits(d, 256)
    ensures |b| == |d|
  {
    seq(|d|, i requires 0 <= i < |d| => d[i] as byte)
  }

  function OfBytes(b: bytes): (d: seq<nat>)
    ensures |d| == |b| && Digits(d, 256)
  {
    seq(|b|, i requires 0 <= i < |b| => b[i] as nat)
  }

  function Encode(input: bytes): string {
    ConvertBack(OfBytes(input), 256, 58);
    Text(Convert(OfBytes(input), 256, 58))
  }

  function Decode(s: string): Option<bytes> {
    if s == "" || !Legal(s) then None
    else
      ConvertBack(DigitsOf(s), 58, 256);
      Some(ToBytes(Convert(DigitsOf(s), 58, 256)))
  }

  /** Every non-empty byte string survives encoding. */
  lemma DecodeEncode(input: bytes)
    requires input != []
    ensures Decode(Encode(input)) == Some(input)
  {
    var d := Convert(OfBytes(input), 256, 58);
    ConvertBack(OfBytes(input), 256, 58);
    assert DigitsOf(Text(d)) == d;
    assert ToBytes(OfBytes(input)) == input;
  }

  /** Every text that decodes is the encoding of what it decodes to: the check for canonical text never fails. */
  lemma EncodeDecode(s: string)
    requires Decode(s).Some?
    ensures Encode(Decode(s).value) == s
    ensures Decode(s).value != []
  {
    var d := Convert(DigitsOf(s), 58, 256);
    ConvertBack(DigitsOf(s), 58, 256);
    assert OfBytes(ToBytes(d)) == d;
    forall i | 0 <= i < |s|
      ensures Text(DigitsOf(s))[i] == s[i]
    {
      OneCharacter(Text(DigitsOf(s))[i], s[i]);
    }
    assert Text(DigitsOf(s)) == s;
  }

  /** The text decodes exactly when it is not empty and every character is of the alphabet. */
  lemma DecodesIffLegal(s: string)
    ensures Decode(s).Some? <==> s != "" && Legal(s)
  {
  }

  /** The arithmetic agrees with the alphabet, character by character. */
  lemma AlphabetInOrder(d: nat)
    requires d < 58
    ensures |ALPHABET| == 58 && ALPHABET[d] == Character(d)
  {
    hide IndexOf;
    match d
    case 0 => case 1 => case 2 => case 3 => case 4 => case 5 => case 6 => case 7 => case 8 => case 9 =>
    case 10 => case 11 => case 12 => case 13 => case 14 => case 15 => case 16 => case 17 => case 18 => case 19 =>
    case 20 => case 21 => case 22 => case 23 => case 24 => case 25 => case 26 => case 27 => case 28 => case 29 =>
    case 30 => case 31 => case 32 => case 33 => case 34 => case 35 => case 36 => case 37 => case 38 => case 39 =>
    case 40 => case 41 => case 42 => case 43 => case 44 => case 45 => case 46 => case 47 => case 48 => case 49 =>
    case 50 => case 51 => case 52 => case 53 => case 54 => case 55 => case 56 => case _ =>
  }

  // ----- the code -----

  function Reverse<T>(s: seq<T>): (r: seq<T>)
    ensures |r| == |s|
  {
    seq(|s|, i requires 0 <= i < |s| => s[|s| - 1 - i])
  }

  lemma ReverseMore(s: string, c: char, n: nat)
    ensures Reverse(s + [c]) == [c] + Reverse(s)
    ensures Reverse(s + seq(n, _ => c)) == seq(n, _ => c) + Reverse(s)
  {
  }

  lemma TextMore(d: seq<nat>, x: nat)
    requires Digits(d, 58) && x < 58
    ensures Text(d + [x]) == Text(d) + [Character(x)]
  {
  }

  lemma {:induction false} LeadingIs(d: seq<nat>, n: nat)
    requires n <= |d| && (forall i :: 0 <= i < n ==> d[i] == 0) && (n < |d| ==> d[n] != 0)
    ensures Leading(d) == n
  {
    if n > 0 {
      LeadingIs(d[1..], n - 1);
    }
  }

  /** Swap from both ends towards the middle. */
  method ReverseText(text: string) returns (reversed: string)
    ensures reversed == Reverse(text)
  {
    reversed := text;
    var left, right := 0, |text| - 1;
    while left < right
      invariant 0 <= left && left + right == |text| - 1 && |reversed| == |text| && left <= right + 1
      invariant forall i :: 0 <= i < left ==> reversed[i] == text[|text| - 1 - i] && reversed[|text| - 1 - i] == text[i]
      invariant forall i :: left <= i <= right ==> reversed[i] == text[i]
    {
      reversed := reversed[left := reversed[right]][right := reversed[left]];
      left, right := left + 1, right - 1;
    }
  }

  /** The digits of a number, least significant first. */
  method DigitText(number: nat) returns (text: string)
    ensures Reverse(text) == Text(Minimal(number, 58))
  {
    hide Quotient, Remainder;
    text := "";
    var value := number;
    while value > 0
      invariant Text(Minimal(number, 58)) == Text(Minimal(value, 58)) + Reverse(text)
    {
      var digit := Remainder(value, 58);
      TextMore(Minimal(Quotient(value, 58), 58), digit);
      ReverseMore(text, Character(digit), 0);
      text := text + [Character(digit)];
      value := Quotient(value, 58);
    }
    NoDigits(58);
  }

  method EncodeBase58(input: bytes) returns (text: string)
    ensures text == Encode(input)
  {
    ConvertBack(OfBytes(input), 256, 58);
    if |input| == 0 {
      return "";
    }
    var zeroes := 0;
    while zeroes < |input| && input[zeroes] == 0
      invariant zeroes <= |input| && forall i :: 0 <= i < zeroes ==> input[i] == 0
    {
      zeroes := zeroes + 1;
    }
    LeadingIs(OfBytes(input), zeroes);
    var value := NumberOf(input);
    text := DigitText(value);
    ReverseMore(text, '1', zeroes);
    text := text + seq(zeroes, _ => '1');
    text := ReverseText(text);
    assert Text(Zeroes(zeroes)) == seq(zeroes, _ => '1');
    TextJoined(Zeroes(zeroes), Minimal(value, 58));
  }

  lemma TextJoined(a: seq<nat>, b: seq<nat>)
    requires Digits(a, 58) && Digits(b, 58)
    ensures Digits(a + b, 58) && Text(a + b) == Text(a) + Text(b)
  {
  }

  /** The number a byte string denotes, most significant byte first. */
  method NumberOf(input: bytes) returns (value: nat)
    ensures value == Value(OfBytes(input), 256)
  {
    value := 0;
    for i := 0 to |input|
      invariant value == Value(OfBytes(input[..i]), 256)
    {
      ValueStep(OfBytes(input[..i + 1]), 256);
      assert OfBytes(input[..i + 1])[..i] == OfBytes(input[..i]);
      value := value * 256 + input[i];
    }
    assert input[..|input|] == input;
  }

  method DecodeBase58(text: string) returns (result: Option<bytes>)
    ensures result == Decode(text)
  {
    if |text| == 0 {
      return None;
    }
    var zeroes := 0;
    while zeroes < |text| && text[zeroes] == '1'
      invariant zeroes <= |text| && forall i :: 0 <= i < zeroes ==> text[i] == '1'
    {
      zeroes := zeroes + 1;
    }
    var value := 0;
    for index := 0 to |text|
      invariant Legal(text[..index]) && value == Value(DigitsOf(text[..index]), 58)
    {
      var digit := IndexOf(text[index]);
      if digit.None? {
        return None;
      }
      LegalMore(text, index);
      value := value * 58 + digit.value;
    }
    assert text[..|text|] == text;
    ZeroCharacters(text, zeroes);
    ConvertBack(DigitsOf(text), 58, 256);
    return Some(ToBytes(Zeroes(zeroes) + Minimal(value, 256)));
  }

  lemma LegalMore(text: string, index: nat)
    requires index < |text| && Legal(text[..index]) && IndexOf(text[index]).Some?
    ensures Legal(text[..index + 1])
    ensures Value(DigitsOf(text[..index + 1]), 58) == Value(DigitsOf(text[..index]), 58) * 58 + IndexOf(text[index]).value
  {
    ValueStep(DigitsOf(text[..index + 1]), 58);
    assert DigitsOf(text[..index + 1])[..index] == DigitsOf(text[..index]);
  }

  lemma ZeroCharacters(text: string, n: nat)
    requires Legal(text) && n <= |text| && (forall i :: 0 <= i < n ==> text[i] == '1') && (n < |text| ==> text[n] != '1')
    ensures Leading(DigitsOf(text)) == n
  {
    if n < |text| && IndexOf(text[n]).value == 0 {
      OneCharacter(text[n], '1');
    }
    LeadingIs(DigitsOf(text), n);
  }
}
