/** Choosing which first attempts fail: clustered by customer, in place on the payment table. */
module Clustering {
  import opened Sorting
  import opened Simulation

  function Older(a: Payment, b: Payment): bool {
    a.createdAt <= b.createdAt
  }

  /** The rows of one customer, oldest first. */
  function GroupOf(rows: seq<Payment>, c: CustomerId): seq<Payment> {
    if rows == [] then []
    else
      var last := rows[|rows| - 1];
      var rest := GroupOf(rows[..|rows| - 1], c);
      if last.customer == c then rest + [last] else rest
  }

  lemma OlderIsPreorder()
    ensures TotalPreorder(Older)
  {
  }

  /** The ranking of customers: by discipline, ties by id. */
  predicate RankedBefore(rank: CustomerId -> real, a: CustomerId, b: CustomerId) {
    rank(a) < rank(b) || (rank(a) == rank(b) && a <= b)
  }

  /** Cluster order: by ranked customer, and by age within a customer. */
  predicate InOrder(rank: CustomerId -> real, a: Payment, b: Payment) {
    if a.customer == b.customer then a.createdAt <= b.createdAt else RankedBefore(rank, a.customer, b.customer)
  }

  ghost predicate ClusterOrdered(rank: CustomerId -> real, rows: seq<Payment>) {
    forall i, j :: 0 <= i < j < |rows| ==> InOrder(rank, rows[i], rows[j])
  }

  /** The discipline of a customer, from the segment on their oldest candidate row. */
  function RankOf(groups: map<CustomerId, seq<Payment>>, discipline: (CustomerId, Segment) -> real)
    : CustomerId -> real
  {
    c => if c in groups && groups[c] != [] then discipline(c, groups[c][0].segment) else 0.0
  }

  ghost predicate Grouped(rows: seq<Payment>, groups: map<CustomerId, seq<Payment>>, order: seq<CustomerId>) {
    && (forall i, j :: 0 <= i < j < |order| ==> order[i] != order[j])
    && (forall c :: c in groups <==> c in order)
    && (forall c :: c in groups ==> groups[c] == GroupOf(rows, c) && groups[c] != [])
    && (forall c :: c !in groups ==> GroupOf(rows, c) == [])
  }

  method GroupByCustomer(rows: seq<Payment>) returns (groups: map<CustomerId, seq<Payment>>, order: seq<CustomerId>)
    ensures Grouped(rows, groups, order)
  {
    groups, order := map[], [];
    var i := 0;
    while i < |rows|
      invariant 0 <= i <= |rows|
      invariant Grouped(rows[..i], groups, order)
    {
      var row := rows[i];
      assert rows[..i + 1][..i] == rows[..i] && rows[..i + 1][i] == row;
      assert forall c :: GroupOf(rows[..i + 1], c) == GroupOf(rows[..i], c) + if c == row.customer then [row] else [];
      if row.customer !in groups {
        groups := groups[row.customer := []];
        order := order + [row.customer];
      }
      groups := groups[row.customer := groups[row.customer] + [row]];
      i := i + 1;
    }
    assert rows[..i] == rows;
  }

  function SortedGroups(groups: map<CustomerId, seq<Payment>>): map<CustomerId, seq<Payment>> {
    map c | c in groups :: Sort(groups[c], Older)
  }

  /** The groups laid end to end. */
  function Concat(groups: map<CustomerId, seq<Payment>>, order: seq<CustomerId>): seq<Payment>
    requires forall c :: c in order ==> c in groups
  {
    if order == [] then []
    else Concat(groups, order[..|order| - 1]) + groups[order[|order| - 1]]
  }

  /** The first row of its customer. */
  ghost predicate IsFirst(rows: seq<Payment>, i: int) {
    0 <= i < |rows| && forall j :: 0 <= j < i ==> rows[j].customer != rows[i].customer
  }

  /** A customer's rank is their discipline, read off their first row. */
  ghost predicate RanksBy(rank: CustomerId -> real, rows: seq<Payment>, discipline: (CustomerId, Segment) -> real) {
    forall i :: IsFirst(rows, i) ==> rank(rows[i].customer) == discipline(rows[i].customer, rows[i].segment)
  }

  /** The re-ranking: a permutation in cluster order. */
  method ClusterFailures(candidates: seq<Payment>, discipline: (CustomerId, Segment) -> real)
    returns (clustered: seq<Payment>, ghost rank: CustomerId -> real)
    ensures multiset(clustered) == multiset(candidates)
    ensures ClusterOrdered(rank, clustered)
    ensures RanksBy(rank, clustered, discipline)
  {
    var unsorted, keys := GroupByCustomer(candidates);
    var groups := SortedGroups(unsorted);
    var score := RankOf(groups, discipline);
    rank := score;
    var ranked := Sort(keys, (a: CustomerId, b: CustomerId) => RankedBefore(score, a, b));
    RankingSorts(score, keys);
    clustered := LayOut(groups, ranked);
    ClusteredIsPermutation(candidates, unsorted, keys, ranked);
    ClusteredIsOrdered(candidates, unsorted, ranked, score);
    FirstRowsRank(candidates, unsorted, ranked, discipline);
  }

  method LayOut(groups: map<CustomerId, seq<Payment>>, ranked: seq<CustomerId>) returns (clustered: seq<Payment>)
    requires forall c :: c in ranked ==> c in groups
    ensures clustered == Concat(groups, ranked)
  {
    clustered := [];
    var i := 0;
    while i < |ranked|
      invariant 0 <= i <= |ranked|
      invariant clustered == Concat(groups, ranked[..i])
    {
      assert ranked[..i + 1][..i] == ranked[..i];
      clustered := clustered + groups[ranked[i]];
      i := i + 1;
    }
    assert ranked[..i] == ranked;
  }

  lemma RankingSorts(rank: CustomerId -> real, keys: seq<CustomerId>)
    requires forall i, j :: 0 <= i < j < |keys| ==> keys[i] != keys[j]
    ensures var before := (a: CustomerId, b: CustomerId) => RankedBefore(rank, a, b);
            var ranked := Sort(keys, before);
            && SortedBy(ranked, before) && multiset(ranked) == multiset(keys)
            && (forall i, j :: 0 <= i < j < |ranked| ==> ranked[i] != ranked[j])
            && (forall c :: c in ranked <==> c in keys)
  {
    var before := (a: CustomerId, b: CustomerId) => RankedBefore(rank, a, b);
    assert TotalPreorder(before);
    SortSorts(keys, before);
    DistinctIsMultiset(keys, Sort(keys, before));
  }

  /** A rearrangement of distinct keys has distinct keys. */
  lemma DistinctIsMultiset<T>(s: seq<T>, t: seq<T>)
    requires multiset(s) == multiset(t) && forall i, j :: 0 <= i < j < |s| ==> s[i] != s[j]
    ensures forall i, j :: 0 <= i < j < |t| ==> t[i] != t[j]
    ensures forall x :: x in t <==> x in s
  {
    forall x ensures x in t <==> x in s {
      assert x in multiset(s) <==> x in multiset(t);
    }
    forall i, j | 0 <= i < j < |t|
      ensures t[i] != t[j]
    {
      if t[i] == t[j] {
        assert t == t[..i] + [t[i]] + t[i + 1..j] + [t[j]] + t[j + 1..];
        assert multiset(t)[t[i]] >= 2;
        MultiplicityOne(s, t[i]);
      }
    }
  }

  lemma {:induction false} MultiplicityOne<T>(s: seq<T>, x: T)
    requires forall i, j :: 0 <= i < j < |s| ==> s[i] != s[j]
    ensures multiset(s)[x] <= 1
  {
    if s != [] {
      var n := |s| - 1;
      MultiplicityOne(s[..n], x);
      assert s == s[..n] + [s[n]];
      assert s[n] !in s[..n];
    }
  }

  // The permutation

  /** The part of a multiset of rows that belongs to some customers. */
  function Part(rows: seq<Payment>, customers: set<CustomerId>): multiset<Payment> {
    if rows == [] then multiset{}
    else
      var n := |rows| - 1;
      Part(rows[..n], customers) + if rows[n].customer in customers then multiset{rows[n]} else multiset{}
  }

  lemma {:induction false} PartAll(rows: seq<Payment>, customers: set<CustomerId>)
    requires forall i :: 0 <= i < |rows| ==> rows[i].customer in customers
    ensures Part(rows, customers) == multiset(rows)
  {
    if rows != [] {
      var n := |rows| - 1;
      PartAll(rows[..n], customers);
      assert rows == rows[..n] + [rows[n]];
    }
  }

  lemma {:induction false} PartGrows(rows: seq<Payment>, customers: set<CustomerId>, c: CustomerId)
    requires c !in customers
    ensures Part(rows, customers + {c}) == Part(rows, customers) + multiset(GroupOf(rows, c))
  {
    if rows != [] {
      var n := |rows| - 1;
      PartGrows(rows[..n], customers, c);
    }
  }

  lemma {:induction false} PartNone(rows: seq<Payment>)
    ensures Part(rows, {}) == multiset{}
  {
    if rows != [] { PartNone(rows[..|rows| - 1]); }
  }

  /** The customers among the first n. */
  function Front(ranked: seq<CustomerId>, n: nat): set<CustomerId>
    requires n <= |ranked|
  {
    if n == 0 then {} else Front(ranked, n - 1) + {ranked[n - 1]}
  }

  lemma {:induction false} InFront(ranked: seq<CustomerId>, n: nat)
    requires n <= |ranked|
    ensures forall c :: c in Front(ranked, n) <==> c in ranked[..n]
  {
    if n > 0 {
      InFront(ranked, n - 1);
      assert ranked[..n] == ranked[..n - 1] + [ranked[n - 1]];
    }
  }

  lemma {:induction false} ConcatIsPart(candidates: seq<Payment>, unsorted: map<CustomerId, seq<Payment>>,
                                        ranked: seq<CustomerId>, n: nat)
    requires n <= |ranked|
    requires forall i, j :: 0 <= i < j < |ranked| ==> ranked[i] != ranked[j]
    requires forall c :: c in ranked ==> c in unsorted && unsorted[c] == GroupOf(candidates, c)
    ensures multiset(Concat(SortedGroups(unsorted), ranked[..n])) == Part(candidates, Front(ranked, n))
  {
    if n == 0 {
      PartNone(candidates);
    } else {
      var c := ranked[n - 1];
      ConcatIsPart(candidates, unsorted, ranked, n - 1);
      assert ranked[..n][..n - 1] == ranked[..n - 1] && ranked[..n][n - 1] == c;
      InFront(ranked, n - 1);
      PartGrows(candidates, Front(ranked, n - 1), c);
      OlderIsPreorder();
      SortSorts(unsorted[c], Older);
    }
  }

  lemma {:induction false} GroupEmpty(rows: seq<Payment>, c: CustomerId)
    ensures GroupOf(rows, c) == [] ==> forall i :: 0 <= i < |rows| ==> rows[i].customer != c
    ensures forall i :: 0 <= i < |GroupOf(rows, c)| ==> GroupOf(rows, c)[i].customer == c
  {
    if rows != [] { GroupEmpty(rows[..|rows| - 1], c); }
  }

  lemma ClusteredIsPermutation(candidates: seq<Payment>, unsorted: map<CustomerId, seq<Payment>>, keys: seq<CustomerId>,
                               ranked: seq<CustomerId>)
    requires Grouped(candidates, unsorted, keys)
    requires forall i, j :: 0 <= i < j < |ranked| ==> ranked[i] != ranked[j]
    requires forall c :: c in ranked <==> c in keys
    ensures multiset(Concat(SortedGroups(unsorted), ranked)) == multiset(candidates)
  {
    ConcatIsPart(candidates, unsorted, ranked, |ranked|);
    assert ranked[..|ranked|] == ranked;
    var all := Front(ranked, |ranked|);
    InFront(ranked, |ranked|);
    forall i | 0 <= i < |candidates| ensures candidates[i].customer in all {
      GroupEmpty(candidates, candidates[i].customer);
      assert candidates[i].customer in ranked;
    }
    PartAll(candidates, all);
  }

  // The order

  ghost predicate OwnSorted(rows: seq<Payment>, c: CustomerId) {
    SortedBy(rows, Older) && forall i :: 0 <= i < |rows| ==> rows[i].customer == c
  }

  lemma {:induction false} ConcatOrdered(groups: map<CustomerId, seq<Payment>>, ranked: seq<CustomerId>,
                                         rank: CustomerId -> real)
    requires forall c :: c in ranked ==> c in groups && OwnSorted(groups[c], c)
    requires forall i, j :: 0 <= i < j < |ranked| ==> ranked[i] != ranked[j] && RankedBefore(rank, ranked[i], ranked[j])
    ensures ClusterOrdered(rank, Concat(groups, ranked))
    ensures forall i :: 0 <= i < |Concat(groups, ranked)| ==> Concat(groups, ranked)[i].customer in ranked
  {
    if ranked != [] {
      var n := |ranked| - 1;
      ConcatOrdered(groups, ranked[..n], rank);
      var front, c := Concat(groups, ranked[..n]), ranked[n];
      forall i | 0 <= i < |front|
        ensures front[i].customer != c && RankedBefore(rank, front[i].customer, c)
      {
        var k :| 0 <= k < n && ranked[..n][k] == front[i].customer;
        assert ranked[k] == front[i].customer;
      }
    }
  }

  lemma ClusteredIsOrdered(candidates: seq<Payment>, unsorted: map<CustomerId, seq<Payment>>, ranked: seq<CustomerId>,
                           rank: CustomerId -> real)
    requires forall c :: c in ranked ==> c in unsorted && unsorted[c] == GroupOf(candidates, c)
    requires SortedBy(ranked, (a: CustomerId, b: CustomerId) => RankedBefore(rank, a, b))
    requires forall i, j :: 0 <= i < j < |ranked| ==> ranked[i] != ranked[j]
    ensures ClusterOrdered(rank, Concat(SortedGroups(unsorted), ranked))
  {
    var groups := SortedGroups(unsorted);
    OlderIsPreorder();
    forall c | c in ranked
      ensures c in groups && OwnSorted(groups[c], c)
    {
      SortSorts(unsorted[c], Older);
      GroupEmpty(candidates, c);
      forall i | 0 <= i < |groups[c]| ensures groups[c][i].customer == c {
        assert groups[c][i] in multiset(unsorted[c]);
      }
    }
    ConcatOrdered(groups, ranked, rank);
  }

  lemma {:induction false} ConcatFirst(groups: map<CustomerId, seq<Payment>>, ranked: seq<CustomerId>, i: int)
    requires forall c :: c in ranked ==> c in groups && OwnSorted(groups[c], c) && groups[c] != []
    requires IsFirst(Concat(groups, ranked), i)
    ensures var row := Concat(groups, ranked)[i];
            row.customer in groups && groups[row.customer] != [] && row == groups[row.customer][0]
  {
    if ranked != [] {
      var n := |ranked| - 1;
      var front, rows := Concat(groups, ranked[..n]), Concat(groups, ranked);
      assert rows[|front|].customer == ranked[n];
      if i < |front| {
        assert front[i] == rows[i] && forall j :: 0 <= j < i ==> front[j] == rows[j];
        ConcatFirst(groups, ranked[..n], i);
      }
    }
  }

  lemma FirstRowsRank(candidates: seq<Payment>, unsorted: map<CustomerId, seq<Payment>>, ranked: seq<CustomerId>,
                      discipline: (CustomerId, Segment) -> real)
    requires forall c :: c in ranked ==> c in unsorted && unsorted[c] == GroupOf(candidates, c) && unsorted[c] != []
    ensures RanksBy(RankOf(SortedGroups(unsorted), discipline), Concat(SortedGroups(unsorted), ranked), discipline)
  {
    var groups := SortedGroups(unsorted);
    OlderIsPreorder();
    forall c | c in ranked
      ensures c in groups && OwnSorted(groups[c], c) && groups[c] != []
    {
      SortSorts(unsorted[c], Older);
      GroupEmpty(candidates, c);
      forall i | 0 <= i < |groups[c]| ensures groups[c][i].customer == c {
        assert groups[c][i] in multiset(unsorted[c]);
      }
    }
    forall i | IsFirst(Concat(groups, ranked), i)
      ensures RankOf(groups, discipline)(Concat(groups, ranked)[i].customer)
           == discipline(Concat(groups, ranked)[i].customer, Concat(groups, ranked)[i].segment)
    {
      ConcatFirst(groups, ranked, i);
    }
  }

  // What cluster order gives

  /** The least disciplined customers come first, and of one rank the one with the lower id. */
  lemma LeastDisciplinedFirst(rank: CustomerId -> real, rows: seq<Payment>, i: nat, j: nat)
    requires ClusterOrdered(rank, rows) && i < j < |rows|
    ensures rank(rows[i].customer) <= rank(rows[j].customer)
    ensures rank(rows[i].customer) == rank(rows[j].customer) ==> rows[i].customer <= rows[j].customer
  {
    assert InOrder(rank, rows[i], rows[j]);
  }

  /** Two rows of one customer on either side of the cut at n. */
  predicate Cut(rows: seq<Payment>, n: nat, i: int, j: int) {
    0 <= i < n <= j < |rows| && rows[i].customer == rows[j].customer
  }

  /** A customer's rows are contiguous, so a prefix cuts at most one customer in two, and
      what it takes of any customer are their oldest rows. */
  lemma {:induction false} PrefixSplitsAtMostOne(rank: CustomerId -> real, rows: seq<Payment>, n: nat)
    requires ClusterOrdered(rank, rows) && n <= |rows|
    ensures forall i, j, k :: 0 <= i < j < k < |rows| && rows[i].customer == rows[k].customer ==>
              rows[j].customer == rows[i].customer
    ensures forall i, j, i', j' :: Cut(rows, n, i, j) && Cut(rows, n, i', j') ==> rows[i].customer == rows[i'].customer
    ensures forall i, j :: Cut(rows, n, i, j) ==> rows[i].createdAt <= rows[j].createdAt
  {
    forall i, j, k | 0 <= i < j < k < |rows| && rows[i].customer == rows[k].customer
      ensures rows[j].customer == rows[i].customer
    {
      assert InOrder(rank, rows[i], rows[j]) && InOrder(rank, rows[j], rows[k]);
    }
    forall i, j | Cut(rows, n, i, j)
      ensures rows[i].createdAt <= rows[j].createdAt
    {
      assert InOrder(rank, rows[i], rows[j]);
    }
  }
}
