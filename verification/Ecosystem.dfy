/** The whole pipeline over one payment table, and the books it must balance. */
module Ecosystem {
  import opened Arithmetic
  import opened Wrappers
  import opened Calendar
  import opened Simulation
  import opened Clustering
  import opened Failures
  import opened Recovery
  import opened RecoveryTables
  import opened Ledger
  import opened Behaviour

  datatype Books = Books(failed: seq<Payment>, tables: Tables, kept: seq<Payment>, metrics: Metrics, baseline: Baseline,
                         behaviour: Summary)

  /** Captured first attempts, as generated: distinct ids, no negative amount. */
  ghost predicate FreshLedger(rows: seq<Payment>) {
    && DistinctIds(rows)
    && forall i :: 0 <= i < |rows| ==>
         && rows[i].status.Captured? && !rows[i].isOriginalFailure && rows[i].attempt == 1
         && 0 <= rows[i].amount && Beginning() <= rows[i].createdAt
  }

  /** A marked table: failures are diagnosed first attempts. */
  ghost predicate MarkedLedger(rows: seq<Payment>) {
    && DistinctIds(rows)
    && forall i :: 0 <= i < |rows| ==>
         rows[i].attempt == 1 && 0 <= rows[i].amount && (rows[i].isOriginalFailure ==> ValidFailure(rows[i]))
  }

  /** Rows of known customers in which to fail is to be an original failure. */
  ghost predicate Sound(rows: seq<Payment>, customers: map<CustomerId, Customer>) {
    forall i :: 0 <= i < |rows| ==>
      && rows[i].customer in customers && 1 <= rows[i].attempt
      && (rows[i].isOriginalFailure <==> rows[i].status.FailedPayment?)
      && (rows[i].isOriginalFailure ==> rows[i].attempt == 1)
  }

  lemma MarkingKeepsSound(before: seq<Payment>, after: seq<Payment>, chosen: set<PaymentId>, draws: nat -> Reason,
                          outages: seq<Outage>, customers: map<CustomerId, Customer>)
    requires FreshLedger(before) && MarkedFrom(before, after, chosen, draws, outages)
    requires forall i :: 0 <= i < |before| ==> before[i].customer in customers
    ensures Sound(after, customers)
  {
  }

  lemma {:induction false} SelectionsSound(rows: seq<Payment>, customers: map<CustomerId, Customer>)
    requires Sound(rows, customers)
    ensures Sound(OriginalFailures(rows), customers) && Sound(Later(rows), customers) && Sound(Spare(rows), customers)
  {
    if rows != [] { SelectionsSound(rows[..|rows| - 1], customers); }
  }

  lemma {:induction false} RetriesSound(failed: seq<Payment>, cases: seq<Case>, customers: map<CustomerId, Customer>)
    requires |failed| == |cases| && Sound(failed, customers)
    ensures Sound(RetriesFor(failed, cases), customers)
  {
    if cases != [] { RetriesSound(failed[..|failed| - 1], cases[..|cases| - 1], customers); }
  }

  lemma {:induction false} TopUpsSound(subscriptions: seq<Subscription>, customers: map<CustomerId, Customer>,
                                       window: Window, n: nat)
    requires n > 0 ==> subscriptions != []
    requires forall i :: 0 <= i < |subscriptions| ==> subscriptions[i].customer in customers
    ensures Sound(TopUps(subscriptions, customers, window, n), customers)
  {
    if n > 0 { TopUpsSound(subscriptions, customers, window, n - 1); }
  }

  lemma {:induction false} AttemptsSplit(rows: seq<Payment>)
    requires forall i :: 0 <= i < |rows| ==> 1 <= rows[i].attempt
    ensures |FirstAttempts(rows)| + |Later(rows)| == |rows|
  {
    if rows != [] { AttemptsSplit(rows[..|rows| - 1]); }
  }

  lemma MarkingKeepsLedger(before: seq<Payment>, after: seq<Payment>, chosen: set<PaymentId>, draws: nat -> Reason,
                           outages: seq<Outage>)
    requires FreshLedger(before) && MarkedFrom(before, after, chosen, draws, outages)
    ensures MarkedLedger(after)
  {
    forall i, j | 0 <= i < j < |after| ensures after[i].id != after[j].id {
      assert after[i].id == before[i].id && after[j].id == before[j].id;
    }
  }

  lemma {:induction false} FailuresOk(rows: seq<Payment>)
    requires MarkedLedger(rows)
    ensures var failed := OriginalFailures(rows);
            && DistinctIds(failed)
            && forall i :: 0 <= i < |failed| ==>
                 failed[i] in rows && ValidFailure(failed[i]) && failed[i].attempt == 1 && 0 <= failed[i].amount
    ensures Later(rows) == []
  {
    if rows != [] {
      var n := |rows| - 1;
      FailuresOk(rows[..n]);
      var front := OriginalFailures(rows[..n]);
      assert rows == rows[..n] + [rows[n]];
      forall i | 0 <= i < |front| ensures front[i].id != rows[n].id && front[i] in rows {
        assert front[i] in rows[..n];
      }
    }
  }

  lemma {:induction false} FirstAttemptsAll(rows: seq<Payment>)
    requires forall i :: 0 <= i < |rows| ==> rows[i].attempt == 1
    ensures FirstAttempts(rows) == rows
  {
    if rows != [] {
      FirstAttemptsAll(rows[..|rows| - 1]);
      assert rows == rows[..|rows| - 1] + [rows[|rows| - 1]];
    }
  }

  lemma {:induction false} AtRiskIsFailed(failed: seq<Payment>, cases: seq<Case>)
    requires |failed| == |cases| && forall i :: 0 <= i < |cases| ==> cases[i].amount == failed[i].amount
    ensures AmountOf(cases, Every) == Total(failed)
  {
    if cases != [] {
      AtRiskIsFailed(failed[..|failed| - 1], cases[..|cases| - 1]);
    }
  }

  /** Cases and retries agree with the failures, in number and in money. */
  ghost predicate CasesBalance(b: Books) {
    var cases := b.tables.cases;
    && |cases| == |b.failed|
    && (forall i :: 0 <= i < |cases| ==> cases[i].payment == b.failed[i].id && cases[i].amount == b.failed[i].amount)
    && |b.tables.retries| == CountOf(cases, OnlyRecovered)
    && Total(b.tables.retries) == b.metrics.recovered
    && b.metrics.atRisk == Total(b.failed)
    && 0 <= b.metrics.recovered && 0 <= b.metrics.suppressed
    && b.metrics.recovered + b.metrics.suppressed <= b.metrics.atRisk
    && b.metrics.suppressed == AmountFor(b.failed, {AlreadyPaid, Dispute, MandateRevoked, CustomerCancelled})
    && b.baseline.harmfulRetries == CountOf(cases, OnlySuppressed)
    && b.baseline.recoveredCount == CountFor(b.failed, {UpiFailure, BankTimeout, Unknown})
    && b.baseline.recoveredRevenue == AmountFor(b.failed, {UpiFailure, BankTimeout, Unknown})
  }

  /** Promises are counted, stay within the quota, and below it every failure for lack of
      funds has one. */
  ghost predicate QuotaHolds(b: Books, quota: int) {
    var cases := b.tables.cases;
    && |b.tables.promises| == PromiseCount(cases)
    && (b.tables.promises == [] || |b.tables.promises| <= quota)
    && (|b.tables.promises| < quota ==>
          forall i :: 0 <= i < |cases| && cases[i].reason.InsufficientFunds? ==> cases[i].journey.BPromise?)
  }

  ghost predicate NotRetried(t: Tables, id: PaymentId) {
    && (forall a :: a in t.actions && a.payment == id ==> !a.kind.RetryPaymentAction?)
    && (forall r :: r in t.retries ==> r.id != RetryOf(id))
  }

  /** Exactly the failures that must not be chased are suppressed, and none of them is retried. */
  ghost predicate HarmAvoided(b: Books) {
    && |b.tables.cases| == |b.failed|
    && forall i :: 0 <= i < |b.failed| ==>
         && b.failed[i].reason.Some?
         && (b.tables.cases[i].suppressed <==> IsHarmful(b.failed[i].reason.value))
         && (b.tables.cases[i].suppressed ==> NotRetried(b.tables, b.failed[i].id))
  }

  lemma TablesAvoidHarm(b: Books, draws: nat -> Draws, quota: int)
    requires JourneysFor(b.failed, b.tables.cases, draws, quota) && DistinctIds(b.failed)
    requires AllBacked(b.tables.actions, b.tables.cases) && b.tables.retries == RetriesFor(b.failed, b.tables.cases)
    ensures HarmAvoided(b)
  {
    var cases := b.tables.cases;
    forall i | 0 <= i < |cases| ensures cases[i].payment == b.failed[i].id && b.failed[i].reason.Some? {
      assert JourneyFor(b.failed[i], cases[i], draws(i), PromiseCount(cases[..i]), quota);
    }
    forall i | 0 <= i < |b.failed|
      ensures cases[i].suppressed <==> IsHarmful(b.failed[i].reason.value)
      ensures cases[i].suppressed ==> NotRetried(b.tables, b.failed[i].id)
    {
      SuppressedExactly(b.failed, cases, draws, quota, i);
      if cases[i].suppressed {
        SuppressedNeverRetried(b.failed, cases, b.tables.actions, i);
      }
    }
  }

  /** The trimmed table still holds the failures and the recovered money. */
  ghost predicate KeptBalance(b: Books, target: int, subscribed: bool) {
    && OriginalFailures(b.kept) == b.failed
    && Later(b.kept) == b.tables.retries
    && Total(Later(b.kept)) == b.metrics.recovered
    && (subscribed ==> |b.kept| == Max(target, |b.failed| + |b.tables.retries|))
  }

  /** The customers' profiles account for the trimmed table: every failure, and every row
      that is no retry, once each. */
  ghost predicate BehaviourBalances(b: Books) {
    && SumFailed(b.behaviour.profiles) == |b.failed|
    && SumAttempts(b.behaviour.profiles) == |b.kept| - |b.tables.retries|
  }

  /** Everything the books promise. */
  ghost predicate BooksOk(b: Books, target: int, subscribed: bool, quota: int) {
    && CasesBalance(b)
    && KeptBalance(b, target, subscribed)
    && BehaviourBalances(b)
    && QuotaHolds(b, quota)
    && HarmAvoided(b)
  }

  /** Every customer is listed once. */
  ghost predicate Lists(ids: seq<CustomerId>, customers: map<CustomerId, Customer>) {
    && (forall i, j :: 0 <= i < j < |ids| ==> ids[i] != ids[j])
    && (forall c :: c in customers ==> c in ids)
  }

  lemma ProfilesBalance(b: Books, ids: seq<CustomerId>, customers: map<CustomerId, Customer>)
    requires Lists(ids, customers) && Sound(b.kept, customers)
    requires Summarizes(b.behaviour, b.kept, ids)
    requires OriginalFailures(b.kept) == b.failed && Later(b.kept) == b.tables.retries
    ensures BehaviourBalances(b)
  {
    ProfilesAddUp(b.behaviour, b.kept, ids);
    TallyIsFailures(b.kept);
    AttemptsSplit(b.kept);
  }

  lemma {:induction false} JourneysBalance(failed: seq<Payment>, cases: seq<Case>, draws: nat -> Draws, quota: int)
    requires JourneysFor(failed, cases, draws, quota)
    requires forall i :: 0 <= i < |failed| ==> 0 <= failed[i].amount
    ensures forall i :: 0 <= i < |cases| ==>
              && cases[i].payment == failed[i].id && cases[i].amount == failed[i].amount && failed[i].reason.Some?
              && !(cases[i].recovered && cases[i].suppressed)
              && (cases[i].suppressed <==> IsHarmful(failed[i].reason.value))
  {
    forall i | 0 <= i < |cases|
      ensures cases[i].payment == failed[i].id && cases[i].amount == failed[i].amount && failed[i].reason.Some?
      ensures !(cases[i].recovered && cases[i].suppressed)
      ensures cases[i].suppressed <==> IsHarmful(failed[i].reason.value)
    {
      assert JourneyFor(failed[i], cases[i], draws(i), PromiseCount(cases[..i]), quota);
      SuppressedExactly(failed, cases, draws, quota, i);
    }
  }

  lemma BooksOfCases(b: Books, draws: nat -> Draws, quota: int)
    requires JourneysFor(b.failed, b.tables.cases, draws, quota)
    requires DistinctIds(b.failed) && forall i :: 0 <= i < |b.failed| ==> 0 <= b.failed[i].amount
    requires b.tables.retries == RetriesFor(b.failed, b.tables.cases)
    requires b.metrics == MetricsOf(b.tables.cases)
    requires forall i :: 0 <= i < |b.tables.cases| ==>
               b.tables.cases[i].payment in ById(b.failed) && ById(b.failed)[b.tables.cases[i].payment].reason.Some?
    requires b.baseline == BaselineOf(b.tables.cases, ById(b.failed))
    ensures CasesBalance(b)
  {
    var cases := b.tables.cases;
    JourneysBalance(b.failed, cases, draws, quota);
    RetriesCarryRecovered(b.failed, cases);
    AtRiskIsFailed(b.failed, cases);
    RecoveredAndSuppressedFit(cases);
    forall i | 0 <= i < |cases|
      ensures ById(b.failed)[cases[i].payment] == b.failed[i]
    {
      ByIdFinds(b.failed, i);
    }
    HarmfulIsSuppressed(b.failed, cases, ById(b.failed));
    SuppressedIsHarmful(b.failed, cases);
    BaselineExactly(b.failed, cases, ById(b.failed));
  }

  /** Everything after the failures are known. */
  method CloseBooks(cfg: Config, target: int, marked: seq<Payment>, caseDraws: nat -> Draws, outages: seq<Outage>,
                    customers: map<CustomerId, Customer>, ids: seq<CustomerId>, subscriptions: seq<Subscription>,
                    window: Window)
    returns (books: Option<Books>)
    requires MarkedLedger(marked) && Sound(marked, customers) && Lists(ids, customers)
    requires forall i :: 0 <= i < |subscriptions| ==> subscriptions[i].customer in customers
    ensures books.None? <==> OriginalFailures(marked) == [] && cfg.actionTarget > 0
    ensures books.Some? ==>
              && books.value.failed == OriginalFailures(marked)
              && BooksOk(books.value, target, subscriptions != [], cfg.quota)
  {
    var failed := OriginalFailures(marked);
    FailuresOk(marked);
    var generated := GenerateRecovery(cfg, failed, caseDraws, outages);
    if generated.DivisionByZero? {
      return None;
    }
    CasesHaveJourneys(failed, generated.tables.cases, caseDraws, cfg, outages);
    var b := TrimAndReport(target, marked, failed, generated.tables, caseDraws, cfg.quota, customers, ids,
                           subscriptions, window);
    PromiseQuota(failed, b.tables.cases, caseDraws, cfg.quota);
    TablesAvoidHarm(b, caseDraws, cfg.quota);
    books := Some(b);
  }

  /** Trimming and the reports over it. */
  method TrimAndReport(target: int, marked: seq<Payment>, failed: seq<Payment>, t: Tables, ghost draws: nat -> Draws,
                       ghost quota: int, customers: map<CustomerId, Customer>, ids: seq<CustomerId>,
                       subscriptions: seq<Subscription>, window: Window)
    returns (b: Books)
    requires MarkedLedger(marked) && Sound(marked, customers) && Lists(ids, customers)
    requires failed == OriginalFailures(marked)
    requires JourneysFor(failed, t.cases, draws, quota) && t.retries == RetriesFor(failed, t.cases)
    requires forall i :: 0 <= i < |subscriptions| ==> subscriptions[i].customer in customers
    ensures b.failed == failed && b.tables == t
    ensures CasesBalance(b) && KeptBalance(b, target, subscriptions != []) && BehaviourBalances(b)
  {
    FailuresOk(marked);
    var kept := TrimExtended(target, marked, failed, t, customers, subscriptions, window);
    b := ReportOn(failed, t, kept, ids, draws, quota);
    ProfilesBalance(b, ids, customers);
  }

  /** Metrics, baseline and behaviour over finished tables. */
  method ReportOn(failed: seq<Payment>, t: Tables, kept: seq<Payment>, ids: seq<CustomerId>, ghost draws: nat -> Draws,
                  ghost quota: int)
    returns (b: Books)
    requires JourneysFor(failed, t.cases, draws, quota) && t.retries == RetriesFor(failed, t.cases)
    requires DistinctIds(failed) && forall i :: 0 <= i < |failed| ==> 0 <= failed[i].amount
    ensures b.failed == failed && b.tables == t && b.kept == kept && b.metrics == MetricsOf(t.cases)
    ensures CasesBalance(b) && Summarizes(b.behaviour, kept, ids)
  {
    JourneysBalance(failed, t.cases, draws, quota);
    forall i | 0 <= i < |t.cases|
      ensures t.cases[i].payment in ById(failed) && ById(failed)[t.cases[i].payment].reason.Some?
    {
      ByIdFinds(failed, i);
    }
    var baseline := GenerateBaseline(t.cases, failed);
    var behaviour := SummarizeCustomerBehaviour(ids, kept);
    b := Books(failed, t, kept, MetricsOf(t.cases), baseline, behaviour);
    BooksOfCases(b, draws, quota);
  }

  /** The table with the retries appended, trimmed. */
  method TrimExtended(target: int, marked: seq<Payment>, ghost failed: seq<Payment>, t: Tables,
                      customers: map<CustomerId, Customer>, subscriptions: seq<Subscription>, window: Window)
    returns (kept: seq<Payment>)
    requires MarkedLedger(marked) && Sound(marked, customers)
    requires failed == OriginalFailures(marked) && |t.cases| == |failed|
    requires t.retries == RetriesFor(failed, t.cases)
    requires forall i :: 0 <= i < |subscriptions| ==> subscriptions[i].customer in customers
    ensures OriginalFailures(kept) == failed && Later(kept) == t.retries
    ensures subscriptions != [] ==> |kept| == Max(target, |failed| + |t.retries|)
    ensures Sound(kept, customers)
  {
    kept := TrimPayments(target, marked + t.retries, customers, subscriptions, window);
    ExtendedRows(marked, t.cases, t.retries);
    TrimKeepsFailuresAndRetries(target, marked + t.retries, kept, customers, subscriptions, window);
    ExtendedSound(marked, t.cases, t.retries, customers);
    KeptSound(target, marked + t.retries, kept, customers, subscriptions, window);
  }

  lemma ExtendedSound(marked: seq<Payment>, cases: seq<Case>, retries: seq<Payment>,
                      customers: map<CustomerId, Customer>)
    requires Sound(marked, customers) && |cases| == |OriginalFailures(marked)|
    requires retries == RetriesFor(OriginalFailures(marked), cases)
    ensures Sound(marked + retries, customers)
  {
    SelectionsSound(marked, customers);
    RetriesSound(OriginalFailures(marked), cases, customers);
  }

  lemma KeptSound(target: int, payments: seq<Payment>, kept: seq<Payment>, customers: map<CustomerId, Customer>,
                  subscriptions: seq<Subscription>, window: Window)
    requires Sound(payments, customers)
    requires forall i :: 0 <= i < |subscriptions| ==> subscriptions[i].customer in customers
    requires Trimmed(target, payments, kept, customers, subscriptions, window)
    ensures Sound(kept, customers)
  {
    var failures, retries, spare := OriginalFailures(payments), Later(payments), Spare(payments);
    var taken := Room(target, |failures|, |retries|, |spare|);
    SelectionsSound(payments, customers);
    TopUpsSound(subscriptions, customers, window,
                ToppedUp(target, |failures| + |retries| + taken, subscriptions != []));
  }

  lemma ExtendedRows(marked: seq<Payment>, cases: seq<Case>, retries: seq<Payment>)
    requires MarkedLedger(marked) && |cases| == |OriginalFailures(marked)|
    requires retries == RetriesFor(OriginalFailures(marked), cases)
    ensures OriginalFailures(marked + retries) == OriginalFailures(marked)
    ensures Later(marked + retries) == retries
    ensures var rows := marked + retries;
            forall i :: 0 <= i < |rows| ==> rows[i].isOriginalFailure ==> rows[i].attempt == 1
  {
    FailuresOk(marked);
    RetriesBelong(OriginalFailures(marked), cases);
    RetriesAreLater(retries);
    SelectAppend(marked, retries);
    forall i | 0 <= i < |retries| ensures !retries[i].isOriginalFailure {
      assert retries[i] in retries;
    }
  }

  lemma {:induction false} RetriesAreLater(rows: seq<Payment>)
    requires forall r :: r in rows ==> r.attempt == 2 && !r.isOriginalFailure
    ensures Later(rows) == rows && OriginalFailures(rows) == []
  {
    if rows != [] {
      var n := |rows| - 1;
      assert rows == rows[..n] + [rows[n]];
      RetriesAreLater(rows[..n]);
    }
  }

  /** At most one customer has both failed and unfailed invoices, and of every customer it is
      the earliest that failed. */
  ghost predicate FailuresCluster(before: seq<Payment>, after: seq<Payment>) {
    && (forall i, j :: Split(before, after, i, j) ==> before[i].createdAt <= before[j].createdAt)
    && (forall i, j, i', j' :: Split(before, after, i, j) && Split(before, after, i', j') ==>
          before[i].customer == before[i'].customer)
  }

  lemma MarkingIsSound(before: seq<Payment>, after: seq<Payment>, candidates: seq<Payment>, n: nat,
                       rank: CustomerId -> real, persistence: bool, draws: nat -> Reason, outages: seq<Outage>,
                       customers: map<CustomerId, Customer>)
    requires FreshLedger(before) && multiset(candidates) == multiset(before) && FirstAttempts(before) == before
    requires MarkedFrom(before, after, IdsOf(Chosen(candidates, n)), draws, outages)
    requires persistence ==> ClusterOrdered(rank, candidates)
    requires forall i :: 0 <= i < |before| ==> before[i].customer in customers
    ensures MarkedLedger(after) && Sound(after, customers)
    ensures |OriginalFailures(after)| == if n <= |before| then n else |before|
    ensures persistence ==> FailuresCluster(before, after)
  {
    MarkingKeepsLedger(before, after, IdsOf(Chosen(candidates, n)), draws, outages);
    MarkingKeepsSound(before, after, IdsOf(Chosen(candidates, n)), draws, outages, customers);
    ExactlyThatManyFail(before, after, candidates, n, draws, outages);
    if persistence {
      FailuresClustered(before, after, candidates, n, rank, draws, outages);
    }
  }

  /** From fresh captured invoices to balanced books. */
  method BuildLedger(payments: array<Payment>, shuffled: seq<Payment>, nFailed: nat, persistence: bool,
                     discipline: (CustomerId, Segment) -> real, reasonDraws: nat -> Reason, caseDraws: nat -> Draws,
                     cfg: Config, target: int, outages: seq<Outage>,
                     customers: map<CustomerId, Customer>, ids: seq<CustomerId>, subscriptions: seq<Subscription>,
                     window: Window)
    returns (books: Option<Books>)
    requires FreshLedger(payments[..]) && multiset(shuffled) == multiset(payments[..]) && Lists(ids, customers)
    requires forall i :: 0 <= i < payments.Length ==> payments[i].customer in customers
    requires forall i :: 0 <= i < |subscriptions| ==> subscriptions[i].customer in customers
    modifies payments
    ensures books.None? <==> (nFailed == 0 || payments.Length == 0) && cfg.actionTarget > 0
    ensures books.Some? ==>
              && |books.value.failed| == (if nFailed <= payments.Length then nFailed else payments.Length)
              && BooksOk(books.value, target, subscriptions != [], cfg.quota)
    ensures persistence ==> FailuresCluster(old(payments[..]), payments[..])
  {
    ghost var before := payments[..];
    FirstAttemptsAll(before);
    var failed, candidates, rank := MarkFailures(payments, shuffled, nFailed, persistence, discipline, reasonDraws,
                                                 outages);
    MarkingIsSound(before, payments[..], candidates, nFailed, rank, persistence, reasonDraws, outages, customers);
    books := CloseBooks(cfg, target, payments[..], caseDraws, outages, customers, ids, subscriptions, window);
  }
}
