/** Payment stickiness per customer: every customer's first attempts, in order of age. */
module Behaviour {
  import opened Sorting
  import opened Simulation
  import opened Clustering
  import opened Failures
  import Streaks

  datatype Profile = Profile(customer: CustomerId, attempts: nat, failed: nat, captured: int, maxFail: int,
                             maxPay: int, sticky: bool)

  datatype Summary = Summary(failStreaks: nat, payStreaks: nat, profiles: seq<Profile>)

  predicate DidFail(p: Payment) {
    p.isOriginalFailure || p.status.FailedPayment?
  }

  function FlagsOf(rows: seq<Payment>): (flags: seq<bool>)
    ensures |flags| == |rows|
  {
    seq(|rows|, i requires 0 <= i < |rows| => DidFail(rows[i]))
  }

  /** A customer's first attempts, oldest first. */
  function HistoryOf(payments: seq<Payment>, c: CustomerId): seq<Payment> {
    Sort(GroupOf(FirstAttempts(payments), c), Older)
  }

  /** The profile counts the customer's first attempts and measures the longest unbroken
      runs of failed and of paid ones among them, in order of age. */
  ghost predicate ProfileOf(profile: Profile, payments: seq<Payment>, c: CustomerId) {
    var flags := FlagsOf(HistoryOf(payments, c));
    && profile.customer == c
    && profile.attempts == |flags|
    && profile.failed == Streaks.CountOf(flags, true)
    && profile.captured == Streaks.CountOf(flags, false)
    && Streaks.Longest(flags, true, profile.maxFail)
    && Streaks.Longest(flags, false, profile.maxPay)
    && (profile.sticky <==> profile.maxFail >= 2 || profile.maxPay >= 3)
  }

  function FailStreaks(profiles: seq<Profile>): nat {
    if profiles == [] then 0
    else FailStreaks(profiles[..|profiles| - 1]) + if profiles[|profiles| - 1].maxFail >= 2 then 1 else 0
  }

  function PayStreaks(profiles: seq<Profile>): nat {
    if profiles == [] then 0
    else PayStreaks(profiles[..|profiles| - 1]) + if profiles[|profiles| - 1].maxPay >= 3 then 1 else 0
  }

  ghost predicate Summarizes(s: Summary, payments: seq<Payment>, customers: seq<CustomerId>) {
    && |s.profiles| == |customers|
    && (forall i :: 0 <= i < |customers| ==> ProfileOf(s.profiles[i], payments, customers[i]))
    && s.failStreaks == FailStreaks(s.profiles)
    && s.payStreaks == PayStreaks(s.profiles)
  }

  method ProfileCustomer(c: CustomerId, rows: seq<Payment>, ghost payments: seq<Payment>) returns (profile: Profile)
    requires rows == GroupOf(FirstAttempts(payments), c)
    ensures ProfileOf(profile, payments, c)
  {
    var ledger := Sort(rows, Older);
    var flags := FlagsOf(ledger);
    var maxFail, maxPay, failures, captured := Streaks.Summarize(flags);
    profile := Profile(c, |flags|, failures, captured, maxFail, maxPay, maxFail >= 2 || maxPay >= 3);
  }

  method SummarizeCustomerBehaviour(customers: seq<CustomerId>, payments: seq<Payment>) returns (s: Summary)
    ensures Summarizes(s, payments, customers)
  {
    var byCustomer, order := GroupByCustomer(FirstAttempts(payments));
    s := Summary(0, 0, []);
    var i := 0;
    while i < |customers|
      invariant 0 <= i <= |customers|
      invariant Summarizes(s, payments, customers[..i])
    {
      var c := customers[i];
      var profile := ProfileCustomer(c, if c in byCustomer then byCustomer[c] else [], payments);
      assert (s.profiles + [profile])[..|s.profiles|] == s.profiles;
      s := Summary(s.failStreaks + if profile.maxFail >= 2 then 1 else 0,
                   s.payStreaks + if profile.maxPay >= 3 then 1 else 0,
                   s.profiles + [profile]);
      i := i + 1;
    }
    assert customers[..i] == customers;
  }

  /** A history holds the customer's first attempts, and is in order of age. */
  lemma HistoryExactly(payments: seq<Payment>, c: CustomerId)
    ensures multiset(HistoryOf(payments, c)) == multiset(GroupOf(FirstAttempts(payments), c))
    ensures forall i, j :: 0 <= i < j < |HistoryOf(payments, c)| ==>
              HistoryOf(payments, c)[i].createdAt <= HistoryOf(payments, c)[j].createdAt
    ensures forall p :: p in HistoryOf(payments, c) ==> p.customer == c && p.attempt == 1
  {
    var rows := FirstAttempts(payments);
    OlderIsPreorder();
    SortSorts(GroupOf(rows, c), Older);
    FirstAttemptsSub(payments);
    GroupWithin(rows, c);
    forall p | p in HistoryOf(payments, c) ensures p.customer == c && p.attempt == 1 {
      assert p in multiset(GroupOf(rows, c));
    }
  }

  lemma {:induction false} GroupWithin(rows: seq<Payment>, c: CustomerId)
    ensures forall p :: p in GroupOf(rows, c) ==> p in rows && p.customer == c
  {
    if rows != [] {
      GroupWithin(rows[..|rows| - 1], c);
      assert rows == rows[..|rows| - 1] + [rows[|rows| - 1]];
    }
  }

  /** The totals count the customers with two failures in a row, and with three payments. */
  lemma StreaksExactly(profiles: seq<Profile>)
    ensures FailStreaks(profiles) == |set i | 0 <= i < |profiles| && profiles[i].maxFail >= 2|
    ensures PayStreaks(profiles) == |set i | 0 <= i < |profiles| && profiles[i].maxPay >= 3|
  {
    FailStreaksExactly(profiles);
    PayStreaksExactly(profiles);
  }

  lemma {:induction false} FailStreaksExactly(profiles: seq<Profile>)
    ensures FailStreaks(profiles) == |set i | 0 <= i < |profiles| && profiles[i].maxFail >= 2|
  {
    if profiles != [] {
      var n := |profiles| - 1;
      FailStreaksExactly(profiles[..n]);
      var before := set i | 0 <= i < n && profiles[..n][i].maxFail >= 2;
      assert (set i | 0 <= i < |profiles| && profiles[i].maxFail >= 2)
          == if profiles[n].maxFail >= 2 then before + {n} else before;
    }
  }

  lemma {:induction false} PayStreaksExactly(profiles: seq<Profile>)
    ensures PayStreaks(profiles) == |set i | 0 <= i < |profiles| && profiles[i].maxPay >= 3|
  {
    if profiles != [] {
      var n := |profiles| - 1;
      PayStreaksExactly(profiles[..n]);
      var before := set i | 0 <= i < n && profiles[..n][i].maxPay >= 3;
      assert (set i | 0 <= i < |profiles| && profiles[i].maxPay >= 3)
          == if profiles[n].maxPay >= 3 then before + {n} else before;
    }
  }

  // The profiles add up to the table

  /** How many of the rows failed, or did not. */
  function Tally(rows: seq<Payment>, value: bool): nat {
    Streaks.CountOf(FlagsOf(rows), value)
  }

  lemma TallyAppend(rows: seq<Payment>, row: Payment, value: bool)
    ensures Tally(rows + [row], value) == Tally(rows, value) + if DidFail(row) == value then 1 else 0
  {
    assert FlagsOf(rows + [row])[..|rows|] == FlagsOf(rows);
  }

  lemma {:induction false} TallyInsert(rows: seq<Payment>, row: Payment, value: bool)
    ensures Tally(Insert(rows, row, Older), value) == Tally(rows + [row], value)
  {
    if rows != [] && !Older(rows[|rows| - 1], row) {
      var n := |rows| - 1;
      TallyInsert(rows[..n], row, value);
      TallyAppend(Insert(rows[..n], row, Older), rows[n], value);
      assert rows[..n] + [rows[n]] == rows;
      TallyAppend(rows[..n], rows[n], value);
      TallyAppend(rows[..n], row, value);
      TallyAppend(rows, row, value);
    } else {
      assert rows == [] ==> rows + [row] == [row];
    }
  }

  lemma {:induction false} TallySort(rows: seq<Payment>, value: bool)
    ensures Tally(Sort(rows, Older), value) == Tally(rows, value)
  {
    if rows != [] {
      var n := |rows| - 1;
      TallySort(rows[..n], value);
      TallyInsert(Sort(rows[..n], Older), rows[n], value);
      TallyAppend(Sort(rows[..n], Older), rows[n], value);
      TallyAppend(rows[..n], rows[n], value);
      assert rows == rows[..n] + [rows[n]];
    }
  }

  /** The tallies of the customers' groups, added up. */
  function GroupTally(rows: seq<Payment>, customers: seq<CustomerId>, value: bool): nat {
    if customers == [] then 0
    else GroupTally(rows, customers[..|customers| - 1], value) + Tally(GroupOf(rows, customers[|customers| - 1]), value)
  }

  lemma {:induction false} GroupTallyAppend(rows: seq<Payment>, row: Payment, customers: seq<CustomerId>, value: bool)
    requires forall i, j :: 0 <= i < j < |customers| ==> customers[i] != customers[j]
    ensures GroupTally(rows + [row], customers, value) ==
            GroupTally(rows, customers, value) + if row.customer in customers && DidFail(row) == value then 1 else 0
  {
    if customers != [] {
      var n := |customers| - 1;
      GroupTallyAppend(rows, row, customers[..n], value);
      assert (rows + [row])[..|rows|] == rows;
      TallyAppend(GroupOf(rows, customers[n]), row, value);
      assert customers == customers[..n] + [customers[n]];
    }
  }

  lemma {:induction false} GroupsTallyAll(rows: seq<Payment>, customers: seq<CustomerId>, value: bool)
    requires forall i, j :: 0 <= i < j < |customers| ==> customers[i] != customers[j]
    requires forall i :: 0 <= i < |rows| ==> rows[i].customer in customers
    ensures GroupTally(rows, customers, value) == Tally(rows, value)
  {
    if rows == [] {
      NothingToTally(customers, value);
    } else {
      var n := |rows| - 1;
      GroupsTallyAll(rows[..n], customers, value);
      GroupTallyAppend(rows[..n], rows[n], customers, value);
      TallyAppend(rows[..n], rows[n], value);
      assert rows == rows[..n] + [rows[n]];
    }
  }

  lemma {:induction false} NothingToTally(customers: seq<CustomerId>, value: bool)
    ensures GroupTally([], customers, value) == 0
  {
    if customers != [] { NothingToTally(customers[..|customers| - 1], value); }
  }

  function SumFailed(profiles: seq<Profile>): nat {
    if profiles == [] then 0 else SumFailed(profiles[..|profiles| - 1]) + profiles[|profiles| - 1].failed
  }

  function SumAttempts(profiles: seq<Profile>): nat {
    if profiles == [] then 0 else SumAttempts(profiles[..|profiles| - 1]) + profiles[|profiles| - 1].attempts
  }

  lemma {:induction false} ProfilesTally(s: Summary, payments: seq<Payment>, customers: seq<CustomerId>)
    requires Summarizes(s, payments, customers)
    ensures var rows := FirstAttempts(payments);
            && SumFailed(s.profiles) == GroupTally(rows, customers, true)
            && SumAttempts(s.profiles) == GroupTally(rows, customers, true) + GroupTally(rows, customers, false)
    decreases |customers|
  {
    if customers != [] {
      var n := |customers| - 1;
      var front := s.profiles[..n];
      ProfilesTally(Summary(FailStreaks(front), PayStreaks(front), front), payments, customers[..n]);
      assert ProfileOf(s.profiles[n], payments, customers[n]);
      TallySort(GroupOf(FirstAttempts(payments), customers[n]), true);
      TallySort(GroupOf(FirstAttempts(payments), customers[n]), false);
      Streaks.CountsAddUp(FlagsOf(HistoryOf(payments, customers[n])));
    }
  }

  /** Over all customers the profiles account for every first attempt and every failed one,
      once each. */
  lemma ProfilesAddUp(s: Summary, payments: seq<Payment>, customers: seq<CustomerId>)
    requires Summarizes(s, payments, customers)
    requires forall i, j :: 0 <= i < j < |customers| ==> customers[i] != customers[j]
    requires forall i :: 0 <= i < |payments| ==> payments[i].customer in customers
    ensures SumAttempts(s.profiles) == |FirstAttempts(payments)|
    ensures SumFailed(s.profiles) == Tally(FirstAttempts(payments), true)
  {
    var rows := FirstAttempts(payments);
    FirstAttemptsSub(payments);
    forall i | 0 <= i < |rows| ensures rows[i].customer in customers {
      assert rows[i] in payments;
    }
    ProfilesTally(s, payments, customers);
    GroupsTallyAll(rows, customers, true);
    GroupsTallyAll(rows, customers, false);
    Streaks.CountsAddUp(FlagsOf(rows));
  }

  /** Where failing and being an original failure are the same, the failed invoices of the
      profiles are the original failures. */
  lemma {:induction false} TallyIsFailures(rows: seq<Payment>)
    requires forall i :: 0 <= i < |rows| ==>
               && (rows[i].isOriginalFailure <==> rows[i].status.FailedPayment?)
               && (rows[i].isOriginalFailure ==> rows[i].attempt == 1)
    ensures Tally(FirstAttempts(rows), true) == |OriginalFailures(rows)|
  {
    if rows != [] {
      var n := |rows| - 1;
      TallyIsFailures(rows[..n]);
      if rows[n].attempt == 1 {
        TallyAppend(FirstAttempts(rows[..n]), rows[n], true);
      } else {
        assert FirstAttempts(rows) == FirstAttempts(rows[..n]);
      }
    }
  }
}
