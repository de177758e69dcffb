/** Peer identifiers, ordered as big-endian numbers, and sorted lists of them. */
module SortedIds {

  type PeerId = nat

  predicate Ascending(list: seq<PeerId>) {
    forall i, j :: 0 <= i < j < |list| ==> list[i] < list[j]
  }

  function Elements(list: seq<PeerId>): set<PeerId> {
    set x | x in list
  }

  lemma NoElements(list: seq<PeerId>)
    ensures Elements(list) == {} <==> list == []
  {
    if list != [] {
      assert list[0] in Elements(list);
    }
  }

  /** An ascending list is determined by its elements. */
  lemma {:induction false} AscendingIsUnique(a: seq<PeerId>, b: seq<PeerId>)
    requires Ascending(a) && Ascending(b) && Elements(a) == Elements(b)
    ensures a == b
    decreases |a|
  {
    NoElements(a);
    NoElements(b);
    if a != [] {
      assert a[0] in Elements(b) && b[0] in Elements(a);
      assert a[0] == b[0];
      forall x
        ensures x in Elements(a[1..]) <==> x in Elements(b[1..])
      {
        Rest(a, x);
        Rest(b, x);
      }
      AscendingIsUnique(a[1..], b[1..]);
      assert a == [a[0]] + a[1..] && b == [b[0]] + b[1..];
    }
  }

  lemma Rest(a: seq<PeerId>, x: PeerId)
    requires a != [] && Ascending(a)
    ensures x in Elements(a[1..]) <==> x in Elements(a) && x != a[0]
  {
    if x in Elements(a) && x != a[0] {
      var i :| 0 <= i < |a| && a[i] == x;
      assert a[1..][i - 1] == x;
    }
  }

  /** The list a sort of distinct identifiers leaves. */
  function Insert(list: seq<PeerId>, x: PeerId): (r: seq<PeerId>)
    requires Ascending(list) && x !in list
    ensures Ascending(r) && Elements(r) == Elements(list) + {x} && |r| == |list| + 1
  {
    if list == [] then [x]
    else if x < list[0] then [x] + list
    else
      var rest := Insert(list[1..], x);
      InsertTail(list, x, rest);
      [list[0]] + rest
  }

  lemma InsertTail(list: seq<PeerId>, x: PeerId, rest: seq<PeerId>)
    requires list != [] && Ascending(list) && x !in list && x > list[0]
    requires Ascending(rest) && Elements(rest) == Elements(list[1..]) + {x}
    ensures Ascending([list[0]] + rest) && Elements([list[0]] + rest) == Elements(list) + {x}
  {
    forall y | y in rest
      ensures list[0] < y
    {
      assert y in Elements(rest);
      if y != x {
        Rest(list, y);
        var i :| 0 <= i < |list| && list[i] == y;
      }
    }
    var all := [list[0]] + rest;
    forall i, j | 0 <= i < j < |all|
      ensures all[i] < all[j]
    {
      assert all[j] == rest[j - 1] && rest[j - 1] in rest;
      assert i > 0 ==> all[i] == rest[i - 1];
    }
    assert list[0] in Elements(list);
    forall y
      ensures y in Elements([list[0]] + rest) <==> y in Elements(list) + {x}
    {
      Rest(list, y);
      assert y in Elements(rest) <==> y in rest;
    }
  }

  predicate Distinct(list: seq<PeerId>) {
    forall i, j :: 0 <= i < j < |list| ==> list[i] != list[j]
  }

  /** Sorting distinct identifiers. */
  function Sort(list: seq<PeerId>): (r: seq<PeerId>)
    requires Distinct(list)
    ensures Ascending(r) && Elements(r) == Elements(list) && |r| == |list|
  {
    if list == [] then []
    else
      var rest := list[..|list| - 1];
      var x := list[|list| - 1];
      assert list == rest + [x];
      assert x !in Elements(rest);
      Insert(Sort(rest), x)
  }

  lemma AscendingIsDistinct(list: seq<PeerId>)
    requires Ascending(list)
    ensures Distinct(list)
  {
  }

  lemma {:induction false} DistinctSize(list: seq<PeerId>)
    requires Distinct(list)
    ensures |Elements(list)| == |list|
  {
    if list != [] {
      var rest, x := list[..|list| - 1], list[|list| - 1];
      DistinctSize(rest);
      assert Elements(list) == Elements(rest) + {x};
    }
  }

  lemma ElementsMore(list: seq<PeerId>, x: PeerId)
    ensures Elements(list + [x]) == Elements(list) + {x}
    ensures Distinct(list) && x !in Elements(list) ==> Distinct(list + [x])
  {
    assert (list + [x])[|list|] == x;
    forall y | y in list
      ensures y in list + [x]
    {
    }
  }

  lemma AscendingMore(list: seq<PeerId>, x: PeerId)
    requires Ascending(list) && forall y :: y in Elements(list) ==> y < x
    ensures Ascending(list + [x])
  {
    forall i | 0 <= i < |list|
      ensures list[i] < x
    {
      assert list[i] in Elements(list);
    }
  }
}
