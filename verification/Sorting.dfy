/** A stable insertion sort: the contract of the host language's built-in one. */
module Sorting {
  ghost predicate TotalPreorder<T(!new)>(le: (T, T) -> bool) {
    && (forall a, b :: le(a, b) || le(b, a))
    && (forall a, b, c :: le(a, b) && le(b, c) ==> le(a, c))
  }

  ghost predicate SortedBy<T>(s: seq<T>, le: (T, T) -> bool) {
    forall i, j :: 0 <= i < j < |s| ==> le(s[i], s[j])
  }

  /** Puts x behind everything that may precede it. */
  function Insert<T>(s: seq<T>, x: T, le: (T, T) -> bool): seq<T> {
    if s == [] then [x]
    else
      var n := |s| - 1;
      if le(s[n], x) then s + [x] else Insert(s[..n], x, le) + [s[n]]
  }

  function Sort<T>(s: seq<T>, le: (T, T) -> bool): seq<T> {
    if s == [] then [] else Insert(Sort(s[..|s| - 1], le), s[|s| - 1], le)
  }

  lemma {:induction false} InsertSorts<T(!new)>(s: seq<T>, x: T, le: (T, T) -> bool)
    requires TotalPreorder(le) && SortedBy(s, le)
    ensures SortedBy(Insert(s, x, le), le)
    ensures multiset(Insert(s, x, le)) == multiset(s) + multiset{x}
  {
    if s != [] {
      var n := |s| - 1;
      assert s == s[..n] + [s[n]];
      if !le(s[n], x) {
        InsertSorts(s[..n], x, le);
        var r := Insert(s[..n], x, le);
        forall i | 0 <= i < |r| ensures le(r[i], s[n]) {
          assert r[i] in multiset(r);
          assert r[i] in multiset(s[..n]) || r[i] == x;
        }
      }
    }
  }

  /** The sorted list is ordered and holds the same elements. */
  lemma {:induction false} SortSorts<T(!new)>(s: seq<T>, le: (T, T) -> bool)
    requires TotalPreorder(le)
    ensures SortedBy(Sort(s, le), le)
    ensures multiset(Sort(s, le)) == multiset(s)
    ensures |Sort(s, le)| == |s|
  {
    if s != [] {
      var n := |s| - 1;
      SortSorts(s[..n], le);
      InsertSorts(Sort(s[..n], le), s[n], le);
      assert s == s[..n] + [s[n]];
      assert multiset(s) == multiset(s[..n]) + multiset{s[n]};
    }
    assert |multiset(Sort(s, le))| == |multiset(s)|;
  }
}
