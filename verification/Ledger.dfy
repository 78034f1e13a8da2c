/** Trimming the payment table, the dashboard metrics, and the naive baseline. */
module Ledger {
  import opened Arithmetic
  import opened Wrappers
  import opened Simulation
  import opened Recovery
  import opened RecoveryTables
  import opened Failures
  import opened Units

  datatype Customer = Customer(payMethod: PayMethod, segment: Segment, salaryDependent: bool)

  datatype Subscription = Subscription(id: SubscriptionId, customer: CustomerId, amount: int)

  datatype Window = Window(start: int, asOf: int, lookbackDays: int)

  // Trimming

  /** Rows of a second or later attempt. */
  function Later(rows: seq<Payment>): seq<Payment> {
    if rows == [] then []
    else Later(rows[..|rows| - 1]) + if rows[|rows| - 1].attempt > 1 then [rows[|rows| - 1]] else []
  }

  /** First attempts that did not fail. */
  function Spare(rows: seq<Payment>): seq<Payment> {
    if rows == [] then []
    else
      var last := rows[|rows| - 1];
      Spare(rows[..|rows| - 1]) + if !last.isOriginalFailure && last.attempt == 1 then [last] else []
  }

  function TopUpRow(sub: Subscription, customer: Customer, k: nat, window: Window): Payment {
    var due := window.start + (k % Max(1, window.lookbackDays - 1)) * DAY + 11 * HOUR + 20 * MINUTE;
    var at := if due > window.asOf then window.asOf - 2 * HOUR else due;
    Payment(TopUp(k), sub.customer, sub.id, Captured, None, customer.payMethod, sub.amount, 1, at, Some(at),
            customer.segment, customer.salaryDependent, false)
  }

  function TopUps(subscriptions: seq<Subscription>, customers: map<CustomerId, Customer>, window: Window, n: nat)
    : seq<Payment>
    requires n > 0 ==> subscriptions != []
    requires forall i :: 0 <= i < |subscriptions| ==> subscriptions[i].customer in customers
  {
    if n == 0 then []
    else
      var sub := subscriptions[(n - 1) % |subscriptions|];
      TopUps(subscriptions, customers, window, n - 1) + [TopUpRow(sub, customers[sub.customer], n - 1, window)]
  }

  /** How many spare rows there is room for. */
  function Room(target: int, failures: nat, retries: nat, spare: nat): nat {
    var remaining := target - failures - retries;
    if remaining <= 0 then 0 else if remaining < spare then remaining else spare
  }

  /** How many top-ups it takes from n rows, where there is a subscription to bill. */
  function ToppedUp(target: int, n: nat, subscribed: bool): nat {
    if subscribed && n < target then target - n else 0
  }

  /** Failures first, then retries, then as many spare rows as there is room for, then
      top-ups round the subscriptions; with one, the table has its target length or is as
      long as the failures and retries. */
  ghost predicate Trimmed(target: int, payments: seq<Payment>, kept: seq<Payment>, customers: map<CustomerId, Customer>,
                          subscriptions: seq<Subscription>, window: Window)
    requires forall i :: 0 <= i < |subscriptions| ==> subscriptions[i].customer in customers
  {
    var failures, retries, spare := OriginalFailures(payments), Later(payments), Spare(payments);
    var taken := Room(target, |failures|, |retries|, |spare|);
    var extra := ToppedUp(target, |failures| + |retries| + taken, subscriptions != []);
    && kept == failures + retries + spare[..taken] + TopUps(subscriptions, customers, window, extra)
    && |kept| == if subscriptions == [] then |failures| + |retries| + taken
                 else Max(target, |failures| + |retries|)
  }

  method TrimPayments(target: int, payments: seq<Payment>, customers: map<CustomerId, Customer>,
                      subscriptions: seq<Subscription>, window: Window) returns (kept: seq<Payment>)
    requires forall i :: 0 <= i < |subscriptions| ==> subscriptions[i].customer in customers
    ensures Trimmed(target, payments, kept, customers, subscriptions, window)
  {
    var failures := OriginalFailures(payments);
    var retries := Later(payments);
    var spare := Spare(payments);
    kept := failures + retries;
    var remaining := target - |kept|;
    if remaining > 0 {
      kept := kept + if remaining < |spare| then spare[..remaining] else spare;
    }
    ghost var base := kept;
    assert base == failures + retries + spare[..Room(target, |failures|, |retries|, |spare|)];
    var k := 0;
    while |kept| < target && subscriptions != []
      invariant k > 0 ==> subscriptions != []
      invariant kept == base + TopUps(subscriptions, customers, window, k)
      invariant |kept| <= target || kept == base
      invariant |base| <= |kept|
      decreases target - |kept|
    {
      var sub := subscriptions[k % |subscriptions|];
      kept := kept + [TopUpRow(sub, customers[sub.customer], k, window)];
      k := k + 1;
    }
    TopUpsPlain(subscriptions, customers, window, k);
  }

  lemma {:induction false} SelectAppend(a: seq<Payment>, b: seq<Payment>)
    ensures Later(a + b) == Later(a) + Later(b)
    ensures OriginalFailures(a + b) == OriginalFailures(a) + OriginalFailures(b)
  {
    if b == [] {
      assert a + b == a;
    } else {
      var n := |b| - 1;
      assert (a + b)[..|a + b| - 1] == a + b[..n];
      SelectAppend(a, b[..n]);
    }
  }

  /** Rows that are neither failures nor later attempts. */
  ghost predicate Plain(rows: seq<Payment>) {
    forall i :: 0 <= i < |rows| ==> rows[i].attempt == 1 && !rows[i].isOriginalFailure
  }

  lemma {:induction false} PlainSelectsNothing(rows: seq<Payment>)
    requires Plain(rows)
    ensures Later(rows) == [] && OriginalFailures(rows) == []
  {
    if rows != [] { PlainSelectsNothing(rows[..|rows| - 1]); }
  }

  lemma {:induction false} SparePlain(rows: seq<Payment>)
    ensures Plain(Spare(rows))
  {
    if rows != [] { SparePlain(rows[..|rows| - 1]); }
  }

  lemma {:induction false} TopUpsPlain(subscriptions: seq<Subscription>, customers: map<CustomerId, Customer>,
                                       window: Window, n: nat)
    requires n > 0 ==> subscriptions != []
    requires forall i :: 0 <= i < |subscriptions| ==> subscriptions[i].customer in customers
    ensures Plain(TopUps(subscriptions, customers, window, n)) && |TopUps(subscriptions, customers, window, n)| == n
  {
    if n > 0 { TopUpsPlain(subscriptions, customers, window, n - 1); }
  }

  lemma SelectOne(row: Payment)
    ensures Later([row]) == if row.attempt > 1 then [row] else []
    ensures OriginalFailures([row]) == if row.isOriginalFailure then [row] else []
  {
    assert [row][..0] == [];
  }

  lemma {:induction false} FailuresOfFailures(rows: seq<Payment>)
    requires forall i :: 0 <= i < |rows| ==> rows[i].isOriginalFailure ==> rows[i].attempt == 1
    ensures OriginalFailures(OriginalFailures(rows)) == OriginalFailures(rows) && Later(OriginalFailures(rows)) == []
  {
    if rows != [] {
      var n := |rows| - 1;
      FailuresOfFailures(rows[..n]);
      if rows[n].isOriginalFailure {
        SelectAppend(OriginalFailures(rows[..n]), [rows[n]]);
        SelectOne(rows[n]);
      } else {
        assert OriginalFailures(rows) == OriginalFailures(rows[..n]);
      }
    }
  }

  lemma {:induction false} LaterOfLater(rows: seq<Payment>)
    requires forall i :: 0 <= i < |rows| ==> rows[i].isOriginalFailure ==> rows[i].attempt == 1
    ensures Later(Later(rows)) == Later(rows) && OriginalFailures(Later(rows)) == []
  {
    if rows != [] {
      var n := |rows| - 1;
      LaterOfLater(rows[..n]);
      if rows[n].attempt > 1 {
        SelectAppend(Later(rows[..n]), [rows[n]]);
        SelectOne(rows[n]);
      } else {
        assert Later(rows) == Later(rows[..n]);
      }
    }
  }

  lemma SelectFour(failures: seq<Payment>, retries: seq<Payment>, spare: seq<Payment>, topUps: seq<Payment>)
    requires OriginalFailures(failures) == failures && Later(failures) == []
    requires Later(retries) == retries && OriginalFailures(retries) == []
    requires Plain(spare) && Plain(topUps)
    ensures Later(failures + retries + spare + topUps) == retries
    ensures OriginalFailures(failures + retries + spare + topUps) == failures
  {
    SelectAppend(failures, retries);
    SelectAppend(failures + retries, spare);
    SelectAppend(failures + retries + spare, topUps);
    PlainSelectsNothing(spare);
    PlainSelectsNothing(topUps);
  }

  /** Trimming keeps every failure and every retry, once each and in order, whatever the target. */
  lemma {:induction false} TrimKeepsFailuresAndRetries(target: int, payments: seq<Payment>, kept: seq<Payment>,
                                    customers: map<CustomerId, Customer>, subscriptions: seq<Subscription>,
                                    window: Window)
    requires forall i :: 0 <= i < |payments| ==> payments[i].isOriginalFailure ==> payments[i].attempt == 1
    requires forall i :: 0 <= i < |subscriptions| ==> subscriptions[i].customer in customers
    requires Trimmed(target, payments, kept, customers, subscriptions, window)
    ensures OriginalFailures(kept) == OriginalFailures(payments)
    ensures Later(kept) == Later(payments)
  {
    var failures, retries, spare := OriginalFailures(payments), Later(payments), Spare(payments);
    var taken := Room(target, |failures|, |retries|, |spare|);
    var extra := ToppedUp(target, |failures| + |retries| + taken, subscriptions != []);
    FailuresOfFailures(payments);
    LaterOfLater(payments);
    SparePlain(payments);
    TopUpsPlain(subscriptions, customers, window, extra);
    SelectFour(failures, retries, spare[..taken], TopUps(subscriptions, customers, window, extra));
  }

  lemma {:induction false} SelectionsPartition(rows: seq<Payment>)
    requires forall i :: 0 <= i < |rows| ==>
               1 <= rows[i].attempt && (rows[i].isOriginalFailure ==> rows[i].attempt == 1)
    ensures multiset(rows) == multiset(OriginalFailures(rows)) + multiset(Later(rows)) + multiset(Spare(rows))
  {
    if rows != [] {
      var n := |rows| - 1;
      var front, last := rows[..n], rows[n];
      SelectionsPartition(front);
      assert multiset(rows) == multiset(front) + multiset{last} by {
        assert rows == front + [last];
      }
      if last.isOriginalFailure {
        assert Later(rows) == Later(front) && Spare(rows) == Spare(front);
      } else if last.attempt > 1 {
        assert OriginalFailures(rows) == OriginalFailures(front) && Spare(rows) == Spare(front);
      } else {
        assert OriginalFailures(rows) == OriginalFailures(front) && Later(rows) == Later(front);
      }
    }
  }

  /** Failures, retries and spare rows are all there is, each row once: so nothing is lost when
      there is room for all of them, and otherwise only spare rows are. */
  lemma TrimLosesOnlySpare(target: int, payments: seq<Payment>, kept: seq<Payment>,
                           customers: map<CustomerId, Customer>, subscriptions: seq<Subscription>, window: Window)
    requires forall i :: 0 <= i < |payments| ==>
               1 <= payments[i].attempt && (payments[i].isOriginalFailure ==> payments[i].attempt == 1)
    requires forall i :: 0 <= i < |subscriptions| ==> subscriptions[i].customer in customers
    requires Trimmed(target, payments, kept, customers, subscriptions, window)
    ensures |payments| <= target ==> multiset(payments) <= multiset(kept)
    ensures forall p :: p in payments && (p.isOriginalFailure || p.attempt > 1) ==> p in kept
  {
    var failures, retries, spare := OriginalFailures(payments), Later(payments), Spare(payments);
    var taken := Room(target, |failures|, |retries|, |spare|);
    var extra := ToppedUp(target, |failures| + |retries| + taken, subscriptions != []);
    SelectionsPartition(payments);
    assert |payments| == |multiset(payments)| == |failures| + |retries| + |spare|;
    assert |payments| <= target ==> spare[..taken] == spare;
    var base := failures + retries + spare[..taken];
    assert kept == base + TopUps(subscriptions, customers, window, extra);
    assert multiset(kept) == multiset(base) + multiset(TopUps(subscriptions, customers, window, extra));
    forall p | p in payments && (p.isOriginalFailure || p.attempt > 1)
      ensures p in kept
    {
      SparePlain(payments);
      assert p in multiset(payments);
      assert p !in spare;
    }
  }

  /** The table begins with the failures and the retries, and then the first spare rows there
      is room for. */
  lemma TrimKeepsInOrder(target: int, payments: seq<Payment>, kept: seq<Payment>,
                         customers: map<CustomerId, Customer>, subscriptions: seq<Subscription>, window: Window)
    requires forall i :: 0 <= i < |subscriptions| ==> subscriptions[i].customer in customers
    requires Trimmed(target, payments, kept, customers, subscriptions, window)
    ensures var failures, retries, spare := OriginalFailures(payments), Later(payments), Spare(payments);
            var room := target - |failures| - |retries|;
            failures + retries + (if room <= 0 then [] else if room <= |spare| then spare[..room] else spare) <= kept
  {
  }

  /** Top-ups go round the subscriptions: the k-th bills the next of them, captured at once, on
      a day of the window and never in the future. */
  lemma {:induction false} TopUpAt(subscriptions: seq<Subscription>, customers: map<CustomerId, Customer>,
                                  window: Window, n: nat, k: nat)
    requires k < n && subscriptions != []
    requires forall i :: 0 <= i < |subscriptions| ==> subscriptions[i].customer in customers
    ensures |TopUps(subscriptions, customers, window, n)| == n
    ensures var row := TopUps(subscriptions, customers, window, n)[k];
            var sub := subscriptions[k % |subscriptions|];
            && row.id == TopUp(k) && row.subscription == sub.id && row.customer == sub.customer
            && row.amount == sub.amount
            && row.status == Captured && row.attempt == 1 && row.paidAt == Some(row.createdAt)
            && row.createdAt <= window.asOf
            && row.payMethod == customers[sub.customer].payMethod && row.segment == customers[sub.customer].segment
  {
    TopUpsPlain(subscriptions, customers, window, n);
    if k < n - 1 {
      TopUpsPlain(subscriptions, customers, window, n - 1);
      TopUpAt(subscriptions, customers, window, n - 1, k);
    }
  }

  // By reason

  /** The failures of the given reasons, in money and in number. */
  function AmountFor(failed: seq<Payment>, reasons: set<Reason>): int {
    if failed == [] then 0
    else
      var last := failed[|failed| - 1];
      AmountFor(failed[..|failed| - 1], reasons) +
      if last.reason.Some? && last.reason.value in reasons then last.amount else 0
  }

  function CountFor(failed: seq<Payment>, reasons: set<Reason>): nat {
    if failed == [] then 0
    else
      var last := failed[|failed| - 1];
      CountFor(failed[..|failed| - 1], reasons) + if last.reason.Some? && last.reason.value in reasons then 1 else 0
  }

  /** The suppressed revenue is the money of the failures that must not be chased. */
  lemma {:induction false} SuppressedIsHarmful(failed: seq<Payment>, cases: seq<Case>)
    requires |cases| == |failed|
    requires forall i :: 0 <= i < |cases| ==>
               && cases[i].amount == failed[i].amount && failed[i].reason.Some?
               && (cases[i].suppressed <==> IsHarmful(failed[i].reason.value))
    ensures MetricsOf(cases).suppressed == AmountFor(failed, {AlreadyPaid, Dispute, MandateRevoked, CustomerCancelled})
  {
    if cases != [] {
      SuppressedIsHarmful(failed[..|failed| - 1], cases[..|cases| - 1]);
    }
  }

  /** The baseline counts failures by reason: lucky on the rails and where nothing is known,
      harmful where it should have stopped. */
  lemma {:induction false} BaselineExactly(failed: seq<Payment>, cases: seq<Case>, byId: map<PaymentId, Payment>)
    requires |cases| == |failed|
    requires forall i :: 0 <= i < |cases| ==>
               cases[i].payment in byId && byId[cases[i].payment] == failed[i] && failed[i].reason.Some?
    ensures var b := BaselineOf(cases, byId);
            && b.recoveredCount == CountFor(failed, {UpiFailure, BankTimeout, Unknown})
            && b.recoveredRevenue == AmountFor(failed, {UpiFailure, BankTimeout, Unknown})
            && b.harmfulRetries == CountFor(failed, {AlreadyPaid, Dispute, MandateRevoked, CustomerCancelled})
  {
    if cases != [] {
      BaselineExactly(failed[..|failed| - 1], cases[..|cases| - 1], byId);
    }
  }

  // Metrics

  datatype Selection = Every | OnlyRecovered | OnlySuppressed

  predicate Selects(which: Selection, c: Case) {
    match which
    case Every => true
    case OnlyRecovered => c.recovered
    case OnlySuppressed => c.suppressed
  }

  function AmountOf(cases: seq<Case>, which: Selection): int {
    if cases == [] then 0
    else
      var last := cases[|cases| - 1];
      AmountOf(cases[..|cases| - 1], which) + if Selects(which, last) then last.amount else 0
  }

  function CountOf(cases: seq<Case>, which: Selection): nat {
    if cases == [] then 0
    else CountOf(cases[..|cases| - 1], which) + if Selects(which, cases[|cases| - 1]) then 1 else 0
  }

  datatype Metrics = Metrics(atRisk: int, recovered: int, suppressed: int)

  function MetricsOf(cases: seq<Case>): Metrics {
    Metrics(AmountOf(cases, Every), AmountOf(cases, OnlyRecovered), AmountOf(cases, OnlySuppressed))
  }

  /** No money is counted twice: what was recovered and what was suppressed fit into what was at risk. */
  lemma {:induction false} RecoveredAndSuppressedFit(cases: seq<Case>)
    requires forall i :: 0 <= i < |cases| ==> 0 <= cases[i].amount && !(cases[i].recovered && cases[i].suppressed)
    ensures var m := MetricsOf(cases);
            0 <= m.recovered && 0 <= m.suppressed && m.recovered + m.suppressed <= m.atRisk
  {
    if cases != [] {
      RecoveredAndSuppressedFit(cases[..|cases| - 1]);
    }
  }

  function Total(rows: seq<Payment>): int {
    if rows == [] then 0 else Total(rows[..|rows| - 1]) + rows[|rows| - 1].amount
  }

  lemma TotalAppend(rows: seq<Payment>, row: Payment)
    ensures Total(rows + [row]) == Total(rows) + row.amount
  {
    assert (rows + [row])[..|rows|] == rows;
  }

  /** The retry payments carry exactly the recovered revenue, one per recovered case. */
  lemma {:induction false} RetriesCarryRecovered(failed: seq<Payment>, cases: seq<Case>)
    requires |failed| == |cases| && forall i :: 0 <= i < |cases| ==> cases[i].amount == failed[i].amount
    ensures Total(RetriesFor(failed, cases)) == AmountOf(cases, OnlyRecovered)
    ensures |RetriesFor(failed, cases)| == CountOf(cases, OnlyRecovered)
  {
    if cases != [] {
      var n := |cases| - 1;
      RetriesCarryRecovered(failed[..n], cases[..n]);
      var front := RetriesFor(failed[..n], cases[..n]);
      if cases[n].recovered {
        TotalAppend(front, RetryRow(failed[n], cases[n].completedAt.GetOr(0)));
      } else {
        assert front + [] == front;
      }
    }
  }

  // The baseline

  /** Later rows win, as in a dictionary built row by row. */
  function ById(failed: seq<Payment>): map<PaymentId, Payment> {
    if failed == [] then map[]
    else ById(failed[..|failed| - 1])[failed[|failed| - 1].id := failed[|failed| - 1]]
  }

  datatype Baseline = Baseline(recoveredCount: nat, recoveredRevenue: int, harmfulRetries: nat)

  predicate RailFailure(reason: Reason) {
    reason.UpiFailure? || reason.BankTimeout? || reason.Unknown?
  }

  function BaselineOf(cases: seq<Case>, byId: map<PaymentId, Payment>): Baseline
    requires forall i :: 0 <= i < |cases| ==> cases[i].payment in byId && byId[cases[i].payment].reason.Some?
  {
    if cases == [] then Baseline(0, 0, 0)
    else
      var rest := BaselineOf(cases[..|cases| - 1], byId);
      var p := byId[cases[|cases| - 1].payment];
      if IsHarmful(p.reason.value) then rest.(harmfulRetries := rest.harmfulRetries + 1)
      else if RailFailure(p.reason.value) then
        rest.(recoveredCount := rest.recoveredCount + 1, recoveredRevenue := rest.recoveredRevenue + p.amount)
      else rest
  }

  /** Retries everything at once: harmful where it should have stopped, lucky on rail failures. */
  method GenerateBaseline(cases: seq<Case>, failed: seq<Payment>) returns (b: Baseline)
    requires forall i :: 0 <= i < |cases| ==>
               cases[i].payment in ById(failed) && ById(failed)[cases[i].payment].reason.Some?
    ensures b == BaselineOf(cases, ById(failed))
  {
    var byId := map[];
    var i := 0;
    while i < |failed|
      invariant 0 <= i <= |failed|
      invariant byId == ById(failed[..i])
    {
      assert failed[..i + 1][..i] == failed[..i];
      byId := byId[failed[i].id := failed[i]];
      i := i + 1;
    }
    assert failed[..i] == failed;
    var recovered, revenue, harmful := 0, 0, 0;
    i := 0;
    while i < |cases|
      invariant 0 <= i <= |cases|
      invariant Baseline(recovered, revenue, harmful) == BaselineOf(cases[..i], byId)
    {
      assert cases[..i + 1][..i] == cases[..i];
      var p := byId[cases[i].payment];
      var reason := p.reason.value;
      if reason.AlreadyPaid? || reason.Dispute? || reason.MandateRevoked? || reason.CustomerCancelled? {
        harmful := harmful + 1;
      } else if reason.UpiFailure? || reason.BankTimeout? || reason.Unknown? {
        recovered := recovered + 1;
        revenue := revenue + p.amount;
      }
      i := i + 1;
    }
    assert cases[..i] == cases;
    b := Baseline(recovered, revenue, harmful);
  }

  lemma {:induction false} ByIdFinds(failed: seq<Payment>, i: nat)
    requires DistinctIds(failed) && i < |failed|
    ensures failed[i].id in ById(failed) && ById(failed)[failed[i].id] == failed[i]
  {
    var n := |failed| - 1;
    if i < n {
      ByIdFinds(failed[..n], i);
    }
  }

  /** The retries the baseline should not have made are exactly the suppressed cases. */
  lemma {:induction false} HarmfulIsSuppressed(failed: seq<Payment>, cases: seq<Case>, byId: map<PaymentId, Payment>)
    requires |cases| == |failed|
    requires forall i :: 0 <= i < |cases| ==>
               && cases[i].payment in byId && byId[cases[i].payment] == failed[i] && failed[i].reason.Some?
               && (cases[i].suppressed <==> IsHarmful(failed[i].reason.value))
    ensures BaselineOf(cases, byId).harmfulRetries == CountOf(cases, OnlySuppressed)
  {
    if cases != [] {
      var n := |cases| - 1;
      HarmfulIsSuppressed(failed[..n], cases[..n], byId);
    }
  }
}
