/** Marking first attempts as failed, in place on the payment table. */
module Failures {
  import opened Wrappers
  import opened Simulation
  import opened Clustering

  function FirstAttempts(rows: seq<Payment>): seq<Payment> {
    if rows == [] then []
    else FirstAttempts(rows[..|rows| - 1]) + if rows[|rows| - 1].attempt == 1 then [rows[|rows| - 1]] else []
  }

  function OriginalFailures(rows: seq<Payment>): seq<Payment> {
    if rows == [] then []
    else OriginalFailures(rows[..|rows| - 1]) + if rows[|rows| - 1].isOriginalFailure then [rows[|rows| - 1]] else []
  }

  function Marked(row: Payment, drawn: Reason, outages: seq<Outage>): Payment {
    row.(status := FailedPayment, reason := Some(PickFailureReason(row.createdAt, row.payMethod, drawn, outages)),
         paidAt := None, isOriginalFailure := true)
  }

  ghost predicate DistinctIds(rows: seq<Payment>) {
    forall i, j :: 0 <= i < j < |rows| ==> rows[i].id != rows[j].id
  }

  /** The first n candidates, or all of them. */
  function Chosen(candidates: seq<Payment>, n: nat): seq<Payment> {
    if n <= |candidates| then candidates[..n] else candidates
  }

  function IdsOf(rows: seq<Payment>): set<PaymentId> {
    set i | 0 <= i < |rows| :: rows[i].id
  }

  /** The table after marking: chosen rows failed, every other row as it was. */
  ghost predicate MarkedFrom(before: seq<Payment>, after: seq<Payment>, chosen: set<PaymentId>, draws: nat -> Reason,
                             outages: seq<Outage>) {
    && |after| == |before|
    && forall i :: 0 <= i < |after| ==>
         after[i] == if before[i].id in chosen then Marked(before[i], draws(i), outages) else before[i]
  }

  /**
    `shuffled` is the shuffled candidate list and `draws(i)` the reason drawn for row i.
    `chosen` is the selection, in cluster order if clustering is on.
   */
  method MarkFailures(payments: array<Payment>, shuffled: seq<Payment>, n: nat, persistence: bool,
                      discipline: (CustomerId, Segment) -> real, draws: nat -> Reason, outages: seq<Outage>)
    returns (failed: seq<Payment>, ghost candidates: seq<Payment>, ghost rank: CustomerId -> real)
    requires multiset(shuffled) == multiset(FirstAttempts(payments[..]))
    modifies payments
    ensures multiset(candidates) == multiset(shuffled)
    ensures persistence ==> ClusterOrdered(rank, candidates) && RanksBy(rank, candidates, discipline)
    ensures MarkedFrom(old(payments[..]), payments[..], IdsOf(Chosen(candidates, n)), draws, outages)
    ensures failed == OriginalFailures(payments[..])
  {
    candidates := shuffled;
    rank := c => 0.0;
    var ranked := shuffled;
    if persistence {
      ranked, rank := ClusterFailures(shuffled, discipline);
      candidates := ranked;
    }
    var chosen := Chosen(ranked, n);
    var ids := IdsOf(chosen);
    var i := 0;
    while i < payments.Length
      invariant 0 <= i <= payments.Length
      invariant MarkedFrom(old(payments[..i]), payments[..i], ids, draws, outages)
      invariant payments[i..] == old(payments[i..])
    {
      var row := payments[i];
      if row.id in ids {
        var reason := PickFailureReason(row.createdAt, row.payMethod, draws(i), outages);
        row := row.(status := FailedPayment, reason := Some(reason), paidAt := None, isOriginalFailure := true);
        var outage := MatchingOutage(row.createdAt, row.payMethod, outages);
        if outage.Some? {
          row := row.(reason := Some(outage.value.reason));
        }
        payments[i] := row;
      }
      i := i + 1;
    }
    assert payments[..i] == payments[..] && old(payments[..i]) == old(payments[..]);
    failed := [];
    i := 0;
    while i < payments.Length
      invariant 0 <= i <= payments.Length
      invariant failed == OriginalFailures(payments[..i])
    {
      assert payments[..i + 1][..i] == payments[..i];
      if payments[i].isOriginalFailure {
        failed := failed + [payments[i]];
      }
      i := i + 1;
    }
    assert payments[..i] == payments[..];
  }

  // How many fail

  lemma {:induction false} FirstAttemptsSub(rows: seq<Payment>)
    ensures forall p :: p in FirstAttempts(rows) <==> p in rows && p.attempt == 1
    ensures DistinctIds(rows) ==> DistinctIds(FirstAttempts(rows))
  {
    if rows != [] {
      var n := |rows| - 1;
      assert rows == rows[..n] + [rows[n]];
      FirstAttemptsSub(rows[..n]);
      var front := FirstAttempts(rows[..n]);
      if DistinctIds(rows) {
        forall i | 0 <= i < |front| ensures front[i].id != rows[n].id {
          assert front[i] in rows[..n];
        }
      }
    }
  }

  lemma {:induction false} MarkedCount(before: seq<Payment>, after: seq<Payment>, chosen: set<PaymentId>,
                                       draws: nat -> Reason,
                                      outages: seq<Outage>)
    requires MarkedFrom(before, after, chosen, draws, outages) && DistinctIds(before)
    requires forall i :: 0 <= i < |before| ==> !before[i].isOriginalFailure
    ensures |OriginalFailures(after)| == |chosen * IdsOf(before)|
  {
    if before == [] {
      assert chosen * IdsOf(before) == {};
    } else {
      var n := |before| - 1;
      MarkedCount(before[..n], after[..n], chosen, draws, outages);
      IdsGrow(before, chosen);
      assert after[n].isOriginalFailure <==> before[n].id in chosen;
    }
  }

  lemma IdsGrow(rows: seq<Payment>, chosen: set<PaymentId>)
    requires rows != [] && DistinctIds(rows)
    ensures var n := |rows| - 1;
            && rows[n].id !in IdsOf(rows[..n])
            && |chosen * IdsOf(rows)| == |chosen * IdsOf(rows[..n])| + if rows[n].id in chosen then 1 else 0
  {
    var n := |rows| - 1;
    var last := rows[n].id;
    assert IdsOf(rows) == IdsOf(rows[..n]) + {last};
    if last in chosen {
      assert chosen * IdsOf(rows) == chosen * IdsOf(rows[..n]) + {last};
    } else {
      assert chosen * IdsOf(rows) == chosen * IdsOf(rows[..n]);
    }
  }

  lemma {:induction false} IdsCount(rows: seq<Payment>)
    requires DistinctIds(rows)
    ensures |IdsOf(rows)| == |rows|
  {
    if rows != [] {
      var n := |rows| - 1;
      IdsCount(rows[..n]);
      assert IdsOf(rows) == IdsOf(rows[..n]) + {rows[n].id};
      assert rows[n].id !in IdsOf(rows[..n]);
    }
  }

  /** Rearranging rows with distinct ids keeps them distinct. */
  lemma DistinctIdsPermuted(rows: seq<Payment>, permuted: seq<Payment>)
    requires DistinctIds(rows) && multiset(rows) == multiset(permuted)
    ensures DistinctIds(permuted)
  {
    forall i, j | 0 <= i < j < |rows| ensures rows[i] != rows[j] {}
    DistinctIsMultiset(rows, permuted);
    forall i, j | 0 <= i < j < |permuted|
      ensures permuted[i].id != permuted[j].id
    {
      assert permuted[i] in rows && permuted[j] in rows;
    }
  }

  lemma CandidatesAreFirstAttempts(before: seq<Payment>, candidates: seq<Payment>, n: nat)
    requires DistinctIds(before) && multiset(candidates) == multiset(FirstAttempts(before))
    ensures |candidates| == |FirstAttempts(before)| && DistinctIds(Chosen(candidates, n))
    ensures forall p :: p in candidates ==> p in before && p.attempt == 1
  {
    FirstAttemptsSub(before);
    DistinctIdsPermuted(FirstAttempts(before), candidates);
    assert |multiset(candidates)| == |multiset(FirstAttempts(before))|;
    forall p | p in candidates ensures p in before && p.attempt == 1 {
      assert p in multiset(FirstAttempts(before));
    }
  }

  lemma IdsWithin(rows: seq<Payment>, table: seq<Payment>)
    requires forall p :: p in rows ==> p in table
    ensures IdsOf(rows) <= IdsOf(table)
  {
    forall i | 0 <= i < |rows| ensures rows[i].id in IdsOf(table) {
      assert rows[i] in rows;
      var j :| 0 <= j < |table| && table[j] == rows[i];
    }
  }

  /** Exactly as many rows fail as asked for, or all first attempts if there are fewer. */
  lemma ExactlyThatManyFail(before: seq<Payment>, after: seq<Payment>, candidates: seq<Payment>, n: nat,
                            draws: nat -> Reason, outages: seq<Outage>)
    requires DistinctIds(before) && forall i :: 0 <= i < |before| ==> !before[i].isOriginalFailure
    requires multiset(candidates) == multiset(FirstAttempts(before))
    requires MarkedFrom(before, after, IdsOf(Chosen(candidates, n)), draws, outages)
    ensures |candidates| == |FirstAttempts(before)|
    ensures |OriginalFailures(after)| == if n <= |candidates| then n else |candidates|
  {
    var chosen := Chosen(candidates, n);
    CandidatesAreFirstAttempts(before, candidates, n);
    MarkedCount(before, after, IdsOf(chosen), draws, outages);
    IdsCount(chosen);
    forall p | p in chosen ensures p in candidates {}
    IdsWithin(chosen, before);
    assert IdsOf(chosen) * IdsOf(before) == IdsOf(chosen);
  }

  /** The rows that fail are the chosen candidates themselves, all of them first attempts. */
  lemma FailedAreChosen(before: seq<Payment>, after: seq<Payment>, candidates: seq<Payment>, n: nat,
                        draws: nat -> Reason, outages: seq<Outage>, i: nat)
    requires DistinctIds(before) && forall j :: 0 <= j < |before| ==> !before[j].isOriginalFailure
    requires multiset(candidates) == multiset(FirstAttempts(before))
    requires MarkedFrom(before, after, IdsOf(Chosen(candidates, n)), draws, outages)
    requires i < |after|
    ensures after[i].isOriginalFailure <==> before[i] in Chosen(candidates, n)
    ensures after[i].isOriginalFailure ==> before[i].attempt == 1
    ensures after[i].isOriginalFailure ==>
              && after[i].status == FailedPayment && after[i].paidAt == None
              && after[i].reason == Some(match MatchingOutage(before[i].createdAt, before[i].payMethod, outages)
                                         case Some(outage) => outage.reason case None => draws(i))
              && after[i] == before[i].(status := after[i].status, paidAt := after[i].paidAt, reason := after[i].reason,
                                        isOriginalFailure := true)
    ensures !after[i].isOriginalFailure ==> after[i] == before[i]
  {
    var chosen := Chosen(candidates, n);
    CandidatesAreFirstAttempts(before, candidates, n);
    if before[i].id in IdsOf(chosen) {
      var k :| 0 <= k < |chosen| && chosen[k].id == before[i].id;
      assert chosen[k] in candidates;
      var j :| 0 <= j < |before| && before[j] == chosen[k];
      assert j == i;
    }
  }

  /** Two first attempts of one customer, of which the first has failed and the second not. */
  predicate Split(before: seq<Payment>, after: seq<Payment>, i: int, j: int) {
    && |after| == |before| && 0 <= i < |before| && 0 <= j < |before|
    && before[i].customer == before[j].customer && before[j].attempt == 1
    && after[i].isOriginalFailure && !after[j].isOriginalFailure
  }

  /** A split in the table is a cut of the candidate list at the number of failures. */
  lemma SplitIsCut(before: seq<Payment>, after: seq<Payment>, candidates: seq<Payment>, n: nat,
                   draws: nat -> Reason, outages: seq<Outage>, i: nat, j: nat) returns (a: nat, b: nat)
    requires DistinctIds(before) && forall j :: 0 <= j < |before| ==> !before[j].isOriginalFailure
    requires multiset(candidates) == multiset(FirstAttempts(before))
    requires MarkedFrom(before, after, IdsOf(Chosen(candidates, n)), draws, outages)
    requires Split(before, after, i, j)
    ensures Cut(candidates, |Chosen(candidates, n)|, a, b) && candidates[a] == before[i] && candidates[b] == before[j]
  {
    var chosen := Chosen(candidates, n);
    FailedAreChosen(before, after, candidates, n, draws, outages, i);
    FailedAreChosen(before, after, candidates, n, draws, outages, j);
    a :| 0 <= a < |chosen| && chosen[a] == before[i];
    FirstAttemptsSub(before);
    assert before[j] in multiset(candidates);
    b :| 0 <= b < |candidates| && candidates[b] == before[j];
    assert before[j] !in chosen;
  }

  /** In the marked table at most one customer has both failed and unfailed first attempts,
      and of every customer it is the earliest invoices that failed. */
  lemma FailuresClustered(before: seq<Payment>, after: seq<Payment>, candidates: seq<Payment>, n: nat,
                          rank: CustomerId -> real, draws: nat -> Reason, outages: seq<Outage>)
    requires DistinctIds(before) && forall j :: 0 <= j < |before| ==> !before[j].isOriginalFailure
    requires multiset(candidates) == multiset(FirstAttempts(before)) && ClusterOrdered(rank, candidates)
    requires MarkedFrom(before, after, IdsOf(Chosen(candidates, n)), draws, outages)
    ensures forall i, j :: Split(before, after, i, j) ==> before[i].createdAt <= before[j].createdAt
    ensures forall i, j, i', j' :: Split(before, after, i, j) && Split(before, after, i', j') ==>
              before[i].customer == before[i'].customer
  {
    PrefixSplitsAtMostOne(rank, candidates, |Chosen(candidates, n)|);
    forall i, j | Split(before, after, i, j)
      ensures before[i].createdAt <= before[j].createdAt
    {
      var a, b := SplitIsCut(before, after, candidates, n, draws, outages, i, j);
    }
    forall i, j, i', j' | Split(before, after, i, j) && Split(before, after, i', j')
      ensures before[i].customer == before[i'].customer
    {
      var a, b := SplitIsCut(before, after, candidates, n, draws, outages, i, j);
      var a', b' := SplitIsCut(before, after, candidates, n, draws, outages, i', j');
    }
  }
}
