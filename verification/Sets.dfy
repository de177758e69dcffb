/** Sizes of finite sets. */
module Sets {
  lemma {:induction false} SizeWithin<T>(a: set<T>, b: set<T>)
    requires a <= b
    ensures |a| <= |b|
    decreases |a|
  {
    if a != {} {
      var x :| x in a;
      SizeWithin(a - {x}, b - {x});
    }
  }

  lemma EqualSizes<T>(a: set<T>, b: set<T>)
    requires a <= b
    ensures |a| == |b| <==> a == b
  {
    assert b == a + (b - a);
  }

  lemma SizeOfRest<T>(a: set<T>, b: set<T>)
    requires b <= a
    ensures |a - b| == |a| - |b|
  {
    assert a == (a - b) + b;
  }
}
