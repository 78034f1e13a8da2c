/** The loop over all failed payments, the promise quota, and the padding of actions and audits. */
module RecoveryTables {
  import opened Wrappers
  import opened Arithmetic
  import opened Calendar
  import opened Payday
  import opened Simulation
  import opened Recovery
  import opened Units

  datatype Tables = Tables(cases: seq<Case>, actions: seq<Action>, promises: seq<Promise>,
                           audits: seq<AuditRow>, retries: seq<Payment>)

  /** Padding actions over no cases at all divides by zero. */
  datatype Generated = DivisionByZero | Generated(tables: Tables)

  function PromiseCount(cases: seq<Case>): nat {
    if cases == [] then 0
    else PromiseCount(cases[..|cases| - 1]) + if cases[|cases| - 1].journey.BPromise? then 1 else 0
  }

  lemma PromiseCountAppend(cases: seq<Case>, c: Case)
    ensures PromiseCount(cases + [c]) == PromiseCount(cases) + if c.journey.BPromise? then 1 else 0
  {
    assert (cases + [c])[..|cases|] == cases;
  }

  /** The retry payments the recovered cases are owed, in order. */
  function RetriesFor(failed: seq<Payment>, cases: seq<Case>): seq<Payment>
    requires |failed| == |cases|
  {
    if cases == [] then []
    else
      var n := |cases| - 1;
      RetriesFor(failed[..n], cases[..n]) +
      if cases[n].recovered then [RetryRow(failed[n], cases[n].completedAt.GetOr(0))] else []
  }

  lemma RetriesForAppend(failed: seq<Payment>, cases: seq<Case>, p: Payment, c: Case)
    requires |failed| == |cases|
    ensures RetriesFor(failed + [p], cases + [c]) ==
            RetriesFor(failed, cases) + if c.recovered then [RetryRow(p, c.completedAt.GetOr(0))] else []
  {
    assert (failed + [p])[..|failed|] == failed && (cases + [c])[..|cases|] == cases;
  }

  ghost predicate JourneyFor(p: Payment, c: Case, draws: Draws, promised: nat, quota: int) {
    && p.reason.Some? && c.reason == p.reason.value && c.payment == p.id && c.amount == p.amount
    && c.journey ==
       QuotaJourney(AssignJourney(c.reason, p.segment, p.salaryDependent, draws.coin), c.reason, promised, quota)
    && (c.suppressed <==> c.journey.DAlreadyPaid? || c.journey.CStop? || c.journey.CEscalate?)
    && !(c.recovered && c.suppressed)
  }

  /** The part of CasesFor that speaks of journeys only. */
  ghost predicate JourneysFor(failed: seq<Payment>, cases: seq<Case>, draws: nat -> Draws, quota: int) {
    && |cases| == |failed|
    && forall i :: 0 <= i < |cases| ==> JourneyFor(failed[i], cases[i], draws(i), PromiseCount(cases[..i]), quota)
  }

  lemma CasesHaveJourneys(failed: seq<Payment>, cases: seq<Case>, draws: nat -> Draws, cfg: Config,
                          outages: seq<Outage>)
    requires CasesFor(failed, cases, draws, cfg, outages)
    ensures JourneysFor(failed, cases, draws, cfg.quota)
  {
    forall i | 0 <= i < |cases|
      ensures JourneyFor(failed[i], cases[i], draws(i), PromiseCount(cases[..i]), cfg.quota)
    {
      assert CaseFor(failed[i], cases[i], draws(i), PromiseCount(cases[..i]), cfg, outages);
    }
  }

  /** The case stands for the payment, on the journey the quota left open, and is recovered
      exactly when that journey recovers it. */
  ghost predicate CaseFor(p: Payment, c: Case, draws: Draws, promised: nat, cfg: Config, outages: seq<Outage>) {
    && ValidFailure(p)
    && CaseOk(p, c.journey, c)
    && JourneyFor(p, c, draws, promised, cfg.quota)
    && var failedAt := MomentOf(p.createdAt);
    && ValidDate(PromisedOn(failedAt, draws)) && ValidDate(NextPayday(failedAt.date))
    && (c.recovered <==> Recovers(p, failedAt, c.journey, draws, cfg.asOf, outages))
  }

  ghost predicate CasesFor(failed: seq<Payment>, cases: seq<Case>, draws: nat -> Draws, cfg: Config,
                           outages: seq<Outage>) {
    && |cases| == |failed|
    && forall i :: 0 <= i < |cases| ==> CaseFor(failed[i], cases[i], draws(i), PromiseCount(cases[..i]), cfg, outages)
  }

  lemma CasesForAppend(failed: seq<Payment>, cases: seq<Case>, p: Payment, c: Case, draws: nat -> Draws, cfg: Config,
                       outages: seq<Outage>)
    requires CasesFor(failed, cases, draws, cfg, outages)
    requires CaseFor(p, c, draws(|cases|), PromiseCount(cases), cfg, outages)
    ensures CasesFor(failed + [p], cases + [c], draws, cfg, outages)
  {
    forall i | 0 <= i < |cases| + 1
      ensures CaseFor((failed + [p])[i], (cases + [c])[i], draws(i), PromiseCount((cases + [c])[..i]), cfg, outages)
    {
      assert (cases + [c])[..i] == cases[..i];
      if i == |cases| { assert cases[..i] == cases; }
    }
  }

  /** The action is the case's, and is no retry if that case is suppressed. */
  predicate Fits(a: Action, c: Case) {
    a.payment == c.payment && (c.suppressed ==> !a.kind.RetryPaymentAction?)
  }

  ghost predicate Backed(a: Action, cases: seq<Case>) {
    exists j :: 0 <= j < |cases| && Fits(a, cases[j])
  }

  ghost predicate AllBacked(actions: seq<Action>, cases: seq<Case>) {
    forall i :: 0 <= i < |actions| ==> Backed(actions[i], cases)
  }

  lemma BackedAppend(actions: seq<Action>, cases: seq<Case>, c: Case, more: seq<Action>)
    requires AllBacked(actions, cases)
    requires forall i :: 0 <= i < |more| ==> Fits(more[i], c)
    ensures AllBacked(actions + more, cases + [c])
  {
    forall i | 0 <= i < |actions + more|
      ensures Backed((actions + more)[i], cases + [c])
    {
      if i < |actions| {
        assert Backed(actions[i], cases);
        var j :| 0 <= j < |cases| && Fits(actions[i], cases[j]);
        assert (cases + [c])[j] == cases[j];
      } else {
        assert Fits((actions + more)[i], (cases + [c])[|cases|]);
      }
    }
  }

  ghost predicate HasCase(payment: PaymentId, cases: seq<Case>) {
    exists j :: 0 <= j < |cases| && cases[j].payment == payment
  }

  ghost predicate Owned(audits: seq<AuditRow>, cases: seq<Case>) {
    forall i :: 0 <= i < |audits| ==> HasCase(audits[i].payment, cases)
  }

  lemma OwnedAppend(audits: seq<AuditRow>, cases: seq<Case>, c: Case, more: seq<AuditRow>)
    requires Owned(audits, cases)
    requires forall i :: 0 <= i < |more| ==> more[i].payment == c.payment
    ensures Owned(audits + more, cases + [c])
  {
    forall i | 0 <= i < |audits + more|
      ensures HasCase((audits + more)[i].payment, cases + [c])
    {
      if i < |audits| {
        assert HasCase(audits[i].payment, cases);
        var j :| 0 <= j < |cases| && cases[j].payment == audits[i].payment;
        assert (cases + [c])[j] == cases[j];
      } else {
        assert (cases + [c])[|cases|] == c;
      }
    }
  }

  ghost predicate TablesOk(failed: seq<Payment>, t: Tables, draws: nat -> Draws, cfg: Config, outages: seq<Outage>) {
    && CasesFor(failed, t.cases, draws, cfg, outages)
    && |t.promises| == PromiseCount(t.cases)
    && t.retries == RetriesFor(failed, t.cases)
    && AllBacked(t.actions, t.cases)
    && Owned(t.audits, t.cases)
  }

  /** The files of the failures, one each, and nothing else, make up the tables. */
  ghost predicate MadeOf(failed: seq<Payment>, files: seq<CaseFile>, t: Tables) {
    && |files| == |failed|
    && (forall i :: 0 <= i < |files| ==> ValidFailure(failed[i]) && FileOk(failed[i], files[i].case_.journey, files[i]))
    && t == Gathered(files)
  }

  function Gathered(files: seq<CaseFile>): Tables {
    if files == [] then Tables([], [], [], [], [])
    else
      var t, file := Gathered(files[..|files| - 1]), files[|files| - 1];
      Tables(t.cases + [file.case_], t.actions + file.actions, t.promises + file.promises, t.audits + file.audits,
             t.retries + file.retries)
  }

  lemma MadeOfOneMore(failed: seq<Payment>, files: seq<CaseFile>, t: Tables, p: Payment, file: CaseFile, t': Tables)
    requires MadeOf(failed, files, t) && ValidFailure(p) && FileOk(p, file.case_.journey, file)
    requires t' == Tables(t.cases + [file.case_], t.actions + file.actions, t.promises + file.promises,
                          t.audits + file.audits, t.retries + file.retries)
    ensures MadeOf(failed + [p], files + [file], t')
  {
    assert (files + [file])[..|files|] == files;
  }

  /** No backup link yet: only padding makes them. */
  ghost predicate NoLinks(actions: seq<Action>) {
    forall i :: 0 <= i < |actions| ==> !actions[i].kind.GeneratePaymentLink?
  }

  /** A case file holds rows of its own payment only, no link, and no retry if suppressed. */
  ghost predicate Contributes(p: Payment, file: CaseFile) {
    && NoLinks(file.actions)
    && file.case_.payment == p.id
    && (forall i :: 0 <= i < |file.actions| ==> Fits(file.actions[i], file.case_))
    && (forall i :: 0 <= i < |file.audits| ==> file.audits[i].payment == p.id)
    && |file.promises| == (if file.case_.journey.BPromise? then 1 else 0)
    && file.retries == if file.case_.recovered then [RetryRow(p, file.case_.completedAt.GetOr(0))] else []
  }

  lemma OwnRows(p: Payment, file: CaseFile)
    requires ValidFailure(p) && FileOk(p, file.case_.journey, file)
    ensures Contributes(p, file)
  {
    forall i | 0 <= i < |file.actions|
      ensures !file.actions[i].kind.GeneratePaymentLink?
      ensures file.case_.suppressed ==> !file.actions[i].kind.RetryPaymentAction?
    {
      assert StepsOf(file.actions)[i] == file.actions[i].kind;
    }
  }

  lemma BuiltFor(p: Payment, file: CaseFile, draws: Draws, promised: nat, cfg: Config, outages: seq<Outage>)
    requires ValidFailure(p) && FileOk(p, file.case_.journey, file)
    requires var failedAt := MomentOf(p.createdAt);
             && ValidDate(PromisedOn(failedAt, draws)) && ValidDate(NextPayday(failedAt.date))
             && (file.case_.recovered <==> Recovers(p, failedAt, file.case_.journey, draws, cfg.asOf, outages))
    requires file.case_.journey == QuotaJourney(
               AssignJourney(p.reason.value, p.segment, p.salaryDependent, draws.coin),
               p.reason.value, promised, cfg.quota)
    ensures CaseFor(p, file.case_, draws, promised, cfg, outages)
  {
  }

  /** Everything one case adds. */
  method AddCase(t: Tables, p: Payment, file: CaseFile, ghost failed: seq<Payment>, draws: nat -> Draws, cfg: Config,
                 outages: seq<Outage>) returns (t': Tables)
    requires TablesOk(failed, t, draws, cfg, outages)
    requires Contributes(p, file)
    requires CaseFor(p, file.case_, draws(|t.cases|), PromiseCount(t.cases), cfg, outages)
    ensures TablesOk(failed + [p], t', draws, cfg, outages)
    ensures t' == Tables(t.cases + [file.case_], t.actions + file.actions, t.promises + file.promises,
                         t.audits + file.audits, t.retries + file.retries)
  {
    t' := Tables(t.cases + [file.case_], t.actions + file.actions, t.promises + file.promises,
                 t.audits + file.audits, t.retries + file.retries);
    CasesForAppend(failed, t.cases, p, file.case_, draws, cfg, outages);
    PromiseCountAppend(t.cases, file.case_);
    RetriesForAppend(failed, t.cases, p, file.case_);
    BackedAppend(t.actions, t.cases, file.case_, file.actions);
    OwnedAppend(t.audits, t.cases, file.case_, file.audits);
  }

  /** The journey of one failure, and the promises given out after it. */
  method ChooseJourney(p: Payment, coin: bool, promised: nat, quota: int) returns (journey: Journey, promised': nat)
    requires p.reason.Some?
    ensures journey ==
            QuotaJourney(AssignJourney(p.reason.value, p.segment, p.salaryDependent, coin), p.reason.value,
                         promised, quota)
    ensures promised' == promised + if journey.BPromise? then 1 else 0
  {
    journey := AssignJourney(p.reason.value, p.segment, p.salaryDependent, coin);
    promised' := promised;
    if journey.BPromise? && promised' >= quota {
      journey := ARetry;
    }
    if journey.BPromise? {
      promised' := promised' + 1;
    } else if promised' < quota && p.reason.value.InsufficientFunds? {
      journey := BPromise;
      promised' := promised' + 1;
    }
  }

  /** The journey of one failure, and its file. */
  method MakeFile(p: Payment, draws: Draws, promised: nat, cfg: Config, outages: seq<Outage>)
    returns (file: CaseFile, promised': nat)
    requires ValidFailure(p)
    ensures FileOk(p, file.case_.journey, file) && Contributes(p, file)
    ensures CaseFor(p, file.case_, draws, promised, cfg, outages)
    ensures promised' == promised + if file.case_.journey.BPromise? then 1 else 0
  {
    var journey;
    journey, promised' := ChooseJourney(p, draws.coin, promised, cfg.quota);
    file := BuildCase(p, journey, draws, cfg.asOf, outages);
    OwnRows(p, file);
    BuiltFor(p, file, draws, promised, cfg, outages);
  }

  /** One round of the loop: choose the journey, build the case, add its rows. */
  method WorkCase(t: Tables, promised: nat, p: Payment, ghost failed: seq<Payment>, draws: nat -> Draws, cfg: Config,
                  outages: seq<Outage>)
    returns (t': Tables, promised': nat, ghost file: CaseFile)
    requires TablesOk(failed, t, draws, cfg, outages) && promised == PromiseCount(t.cases)
    requires ValidFailure(p)
    ensures TablesOk(failed + [p], t', draws, cfg, outages) && promised' == PromiseCount(t'.cases)
    ensures FileOk(p, file.case_.journey, file) && NoLinks(file.actions)
    ensures t' == Tables(t.cases + [file.case_], t.actions + file.actions, t.promises + file.promises,
                         t.audits + file.audits, t.retries + file.retries)
  {
    var made;
    made, promised' := MakeFile(p, draws(|t.cases|), promised, cfg, outages);
    PromiseCountAppend(t.cases, made.case_);
    t' := AddCase(t, p, made, failed, draws, cfg, outages);
    file := made;
  }

  /** The loop over the failures. */
  method BuildTables(cfg: Config, failed: seq<Payment>, draws: nat -> Draws, outages: seq<Outage>) returns (t: Tables)
    requires forall i :: 0 <= i < |failed| ==> ValidFailure(failed[i])
    ensures TablesOk(failed, t, draws, cfg, outages) && NoLinks(t.actions)
    ensures exists files :: MadeOf(failed, files, t)
  {
    t := Tables([], [], [], [], []);
    var promiseCount := 0;
    ghost var files: seq<CaseFile> := [];
    var i := 0;
    PrefixSteps(failed);
    while i < |failed|
      invariant 0 <= i <= |failed|
      invariant TablesOk(failed[..i], t, draws, cfg, outages)
      invariant promiseCount == PromiseCount(t.cases) && NoLinks(t.actions)
      invariant MadeOf(failed[..i], files, t)
    {
      ghost var before := t;
      ghost var file;
      t, promiseCount, file := WorkCase(t, promiseCount, failed[i], failed[..i], draws, cfg, outages);
      MadeOfOneMore(failed[..i], files, before, failed[i], file, t);
      files := files + [file];
      i := i + 1;
    }
  }

  lemma PrefixSteps<T>(s: seq<T>)
    ensures s[..0] == [] && s[..|s|] == s
    ensures forall i :: 0 <= i < |s| ==> s[..i] + [s[i]] == s[..i + 1]
  {
  }

  /** The scheduler's heartbeat in row i of the trail, within 50 minutes of the case it is put to. */
  predicate Beats(row: AuditRow, c: Case, i: nat) {
    && row.kind == Heartbeat && row.payment == c.payment
    && c.createdAt <= row.at < c.createdAt + 50 * MINUTE && row.at == c.createdAt + (i % 50) * MINUTE
  }

  /** A backup link, three hours after its case was opened. */
  predicate BacksUp(a: Action, c: Case) {
    && a.kind == GeneratePaymentLink && a.payment == c.payment && a.status == Succeeded && a.retryNumber == 2
    && a.scheduled == c.createdAt + 3 * HOUR && a.executed == Some(a.scheduled + 2 * MINUTE)
  }

  /** The tables as finished: padded actions and audits, and nothing else changed. */
  ghost predicate PaddedFrom(t: Tables, padded: Tables, cfg: Config) {
    && padded == t.(actions := padded.actions, audits := padded.audits)
    && PaddedWith(t.actions, t.cases, padded.actions, cfg.actionTarget)
    && t.audits <= padded.audits
    && |padded.audits| == (if t.cases != [] && |t.audits| < cfg.auditTarget then cfg.auditTarget else |t.audits|)
    && forall i :: |t.audits| <= i < |padded.audits| ==> Beats(padded.audits[i], t.cases[i % |t.cases|], i)
  }

  method GenerateRecovery(cfg: Config, failed: seq<Payment>, draws: nat -> Draws, outages: seq<Outage>)
    returns (r: Generated)
    requires forall i :: 0 <= i < |failed| ==> ValidFailure(failed[i])
    ensures r.DivisionByZero? <==> failed == [] && cfg.actionTarget > 0
    ensures r.Generated? ==>
              && TablesOk(failed, r.tables, draws, cfg, outages)
              && (exists t, files :: MadeOf(failed, files, t) && PaddedFrom(t, r.tables, cfg))
              && cfg.actionTarget <= |r.tables.actions|
              && (failed != [] ==> cfg.auditTarget <= |r.tables.audits|)
  {
    var t := BuildTables(cfg, failed, draws, outages);
    assert t.actions != [] ==> Backed(t.actions[0], t.cases);
    if |t.actions| < cfg.actionTarget && t.cases == [] {
      return DivisionByZero;
    }
    var actions := PadActions(t.actions, t.cases, cfg.actionTarget);
    var audits := PadAudits(t.audits, t.cases, cfg.auditTarget);
    r := Generated(t.(actions := actions, audits := audits));
    assert PaddedFrom(t, r.tables, cfg);
  }

  /** Backup links fill the action table. They land on suppressed cases too, but are no retries. */
  method PadActions(actions: seq<Action>, cases: seq<Case>, target: int) returns (padded: seq<Action>)
    requires AllBacked(actions, cases) && (cases == [] ==> target <= |actions|)
    ensures AllBacked(padded, cases) && PaddedWith(actions, cases, padded, target)
  {
    padded := actions;
    while |padded| < target
      invariant AllBacked(padded, cases) && actions <= padded
      invariant |actions| <= |padded| && (|padded| <= target || padded == actions)
      invariant forall i :: |actions| <= i < |padded| ==>
                  BacksUp(padded[i], cases[i % |cases|])
      decreases target - |padded|
    {
      var c := cases[|padded| % |cases|];
      var at := c.createdAt + 3 * HOUR;
      var pad := Action(c.payment, GeneratePaymentLink, at, Some(at + 2 * MINUTE), Succeeded, 2);
      assert Fits(pad, c);
      padded := padded + [pad];
    }
  }

  method PadAudits(audits: seq<AuditRow>, cases: seq<Case>, target: int) returns (padded: seq<AuditRow>)
    requires Owned(audits, cases)
    ensures Owned(padded, cases) && audits <= padded
    ensures |padded| == if cases != [] && |audits| < target then target else |audits|
    ensures forall i :: |audits| <= i < |padded| ==> Beats(padded[i], cases[i % |cases|], i)
  {
    padded := audits;
    while |padded| < target && cases != []
      invariant Owned(padded, cases) && audits <= padded
      invariant |audits| <= |padded| && (|padded| <= target || padded == audits) && (cases == [] ==> padded == audits)
      invariant forall i :: |audits| <= i < |padded| ==> Beats(padded[i], cases[i % |cases|], i)
      decreases target - |padded|
    {
      var c := cases[|padded| % |cases|];
      assert HasCase(c.payment, cases);
      padded := padded + [AuditRow(c.payment, Heartbeat, c.createdAt + (|padded| % 50) * MINUTE)];
    }
  }

  // The promise quota

  lemma {:induction false} PromiseCountPrefix(cases: seq<Case>, i: nat, j: nat)
    requires i <= j <= |cases|
    ensures PromiseCount(cases[..i]) <= PromiseCount(cases[..j])
  {
    if i < j {
      PromiseCountPrefix(cases, i, j - 1);
      assert cases[..j] == cases[..j - 1] + [cases[j - 1]];
      PromiseCountAppend(cases[..j - 1], cases[j - 1]);
    }
  }

  /** One more case: a promise is only added below the quota. */
  lemma {:induction false} QuotaStep(failed: seq<Payment>, cases: seq<Case>, draws: nat -> Draws, quota: int, i: nat)
    requires JourneysFor(failed, cases, draws, quota) && i < |cases|
    ensures var promised := PromiseCount(cases[..i]);
            PromiseCount(cases[..i + 1]) == promised || PromiseCount(cases[..i + 1]) == promised + 1 <= quota
  {
    assert cases[..i + 1] == cases[..i] + [cases[i]];
    PromiseCountAppend(cases[..i], cases[i]);
    assert JourneyFor(failed[i], cases[i], draws(i), PromiseCount(cases[..i]), quota);
  }

  lemma {:induction false} QuotaNeverExceeded(failed: seq<Payment>, cases: seq<Case>, draws: nat -> Draws, quota: int,
                                              n: nat)
    requires JourneysFor(failed, cases, draws, quota) && n <= |cases|
    ensures PromiseCount(cases[..n]) == 0 || PromiseCount(cases[..n]) <= quota
  {
    if n > 0 {
      QuotaNeverExceeded(failed, cases, draws, quota, n - 1);
      QuotaStep(failed, cases, draws, quota, n - 1);
    }
  }

  /** A case of insufficient funds is without a promise exactly when the quota was used up
      before it, so a wait for payday only ever happens then. */
  ghost predicate QuotaSpentBefore(cases: seq<Case>, quota: int, i: int)
    requires 0 <= i < |cases|
  {
    && (cases[i].reason.InsufficientFunds? ==> (cases[i].journey.BPromise? <==> PromiseCount(cases[..i]) < quota))
    && (cases[i].journey.APayday? ==> quota <= PromiseCount(cases[..i]))
  }

  lemma QuotaAt(failed: seq<Payment>, cases: seq<Case>, draws: nat -> Draws, quota: int, i: nat)
    requires JourneysFor(failed, cases, draws, quota) && i < |cases|
    ensures QuotaSpentBefore(cases, quota, i)
    ensures PromiseCount(cases[..i]) <= PromiseCount(cases)
  {
    assert JourneyFor(failed[i], cases[i], draws(i), PromiseCount(cases[..i]), quota);
    PromiseCountPrefix(cases, i, |cases|);
    assert cases[..|cases|] == cases;
  }

  /** Promises never exceed the quota, and if it is not used up, every case of insufficient
      funds got one. */
  lemma {:induction false} PromiseQuota(failed: seq<Payment>, cases: seq<Case>, draws: nat -> Draws, quota: int)
    requires JourneysFor(failed, cases, draws, quota)
    ensures PromiseCount(cases) == 0 || PromiseCount(cases) <= quota
    ensures PromiseCount(cases) < quota ==>
              forall i :: 0 <= i < |cases| && cases[i].reason.InsufficientFunds? ==> cases[i].journey.BPromise?
    ensures forall i :: 0 <= i < |cases| ==> QuotaSpentBefore(cases, quota, i)
  {
    assert cases[..|cases|] == cases;
    QuotaNeverExceeded(failed, cases, draws, quota, |cases|);
    forall i | 0 <= i < |cases| {
      QuotaAt(failed, cases, draws, quota, i);
    }
  }

  // Harm avoidance

  /** A case is suppressed exactly for the four harmful reasons, whatever the quota does. */
  lemma {:induction false} SuppressedExactly(failed: seq<Payment>, cases: seq<Case>, draws: nat -> Draws, quota: int,
                                             i: nat)
    requires JourneysFor(failed, cases, draws, quota) && i < |failed|
    ensures cases[i].suppressed <==> IsHarmful(failed[i].reason.value)
    ensures cases[i].suppressed ==> !cases[i].recovered
  {
    assert JourneyFor(failed[i], cases[i], draws(i), PromiseCount(cases[..i]), quota);
  }

  /** A suppressed case has no retry payment and no retry among its actions, padding included. */
  lemma {:induction false} SuppressedNeverRetried(failed: seq<Payment>, cases: seq<Case>, actions: seq<Action>, i: nat)
    requires |cases| == |failed| && i < |cases| && cases[i].suppressed && !cases[i].recovered
    requires forall j :: 0 <= j < |cases| ==> cases[j].payment == failed[j].id
    requires forall j, k :: 0 <= j < k < |failed| ==> failed[j].id != failed[k].id
    requires AllBacked(actions, cases)
    ensures forall a :: a in actions && a.payment == failed[i].id ==> !a.kind.RetryPaymentAction?
    ensures forall r :: r in RetriesFor(failed, cases) ==> r.id != RetryOf(failed[i].id)
  {
    forall a | a in actions && a.payment == failed[i].id
      ensures !a.kind.RetryPaymentAction?
    {
      var n :| 0 <= n < |actions| && actions[n] == a;
      assert Backed(actions[n], cases);
      var j :| 0 <= j < |cases| && Fits(a, cases[j]);
      assert failed[j].id == failed[i].id;
    }
    RetriesBelong(failed, cases);
  }

  /** The retry is captured at the given time, for the same customer, subscription, amount and
      method. */
  predicate Repays(r: Payment, failed: Payment, at: int) {
    && r.status == Captured && r.reason == None && r.createdAt == at && r.paidAt == Some(at)
    && r.customer == failed.customer && r.subscription == failed.subscription
    && r.amount == failed.amount && r.payMethod == failed.payMethod
  }

  lemma {:induction false} RetriesBelong(failed: seq<Payment>, cases: seq<Case>)
    requires |failed| == |cases|
    ensures forall r :: r in RetriesFor(failed, cases) ==>
              exists j :: 0 <= j < |cases| && cases[j].recovered && r.id == RetryOf(failed[j].id)
                && Repays(r, failed[j], cases[j].completedAt.GetOr(0))
    ensures forall r :: r in RetriesFor(failed, cases) ==> r.attempt == 2 && !r.isOriginalFailure
  {
    if cases != [] {
      var n := |cases| - 1;
      RetriesBelong(failed[..n], cases[..n]);
      forall r | r in RetriesFor(failed, cases)
        ensures exists j :: 0 <= j < |cases| && cases[j].recovered && r.id == RetryOf(failed[j].id)
                  && Repays(r, failed[j], cases[j].completedAt.GetOr(0))
      {
        if r in RetriesFor(failed[..n], cases[..n]) {
          var j :| 0 <= j < n && cases[..n][j].recovered && r.id == RetryOf(failed[..n][j].id)
            && Repays(r, failed[..n][j], cases[..n][j].completedAt.GetOr(0));
          assert cases[j].recovered && r.id == RetryOf(failed[j].id);
        } else {
          assert cases[n].recovered && Repays(r, failed[n], cases[n].completedAt.GetOr(0));
        }
      }
    }
  }

  // Padding reaches suppressed cases too

  /** The first place from n on that the round-robin over `size` cases gives to case k. */
  function FirstTurn(n: nat, size: nat, k: nat): nat
    requires k < size
  {
    n + (k - n) % size
  }

  lemma FirstTurnIsFirst(n: nat, size: nat, k: nat)
    requires k < size
    ensures FirstTurn(n, size, k) % size == k && FirstTurn(n, size, k) < n + size
    ensures forall i :: n <= i && i % size == k ==> FirstTurn(n, size, k) <= i
  {
    var first, q := FirstTurn(n, size, k), (k - n) / size;
    assert first == (-q) * size + k;
    RemainderOfMultiple(-q, k, size);
    RemainderOfSmall(k, size);
    forall i | n <= i && i % size == k
      ensures first <= i
    {
      TurnIsLater(n, size, k, i);
    }
  }

  lemma TurnIsLater(n: nat, size: nat, k: nat, i: nat)
    requires k < size && n <= i && i % size == k
    ensures FirstTurn(n, size, k) <= i
  {
    var p := i / size;
    assert i - n == p * size + (k - n);
    RemainderOfMultiple(p, k - n, size);
    RemainderAtMost(i - n, size);
  }

  /** What PadActions makes of a table. */
  ghost predicate PaddedWith(actions: seq<Action>, cases: seq<Case>, padded: seq<Action>, target: int) {
    && actions <= padded
    && |padded| == (if |actions| < target then target else |actions|)
    && forall i :: |actions| <= i < |padded| ==>
         cases != [] && BacksUp(padded[i], cases[i % |cases|])
  }

  ghost predicate DistinctCases(cases: seq<Case>) {
    forall i, j :: 0 <= i < j < |cases| ==> cases[i].payment != cases[j].payment
  }

  /** The table holds a backup link for the payment. */
  ghost predicate HasLink(actions: seq<Action>, payment: PaymentId) {
    exists i :: 0 <= i < |actions| && actions[i].kind.GeneratePaymentLink? && actions[i].payment == payment
  }

  /** Padding sends a backup link to a case exactly when its first turn in the round-robin
      comes before the target. */
  lemma PaddingReachesExactly(actions: seq<Action>, cases: seq<Case>, padded: seq<Action>, target: int, k: nat)
    requires k < |cases| && DistinctCases(cases) && NoLinks(actions) && PaddedWith(actions, cases, padded, target)
    ensures HasLink(padded, cases[k].payment) <==> FirstTurn(|actions|, |cases|, k) < target
  {
    var first := FirstTurn(|actions|, |cases|, k);
    FirstTurnIsFirst(|actions|, |cases|, k);
    forall i | 0 <= i < |actions| ensures !padded[i].kind.GeneratePaymentLink? {
      assert padded[i] == actions[i];
    }
    if i :| 0 <= i < |padded| && padded[i].kind.GeneratePaymentLink? && padded[i].payment == cases[k].payment {
      assert i % |cases| == k;
    }
    if first < target {
      assert BacksUp(padded[first], cases[first % |cases|]);
    }
  }

  /** So suppression does not keep every contact away: a case that must not be chased is spared
      every retry, but gets a backup link exactly when its turn comes before the target, as
      every such case does once a whole round fits. */
  lemma SuppressedIsContactedExactly(failed: seq<Payment>, cases: seq<Case>, draws: nat -> Draws, quota: int,
                                     actions: seq<Action>, padded: seq<Action>, target: int, k: nat)
    requires JourneysFor(failed, cases, draws, quota) && k < |failed| && IsHarmful(failed[k].reason.value)
    requires DistinctCases(cases) && NoLinks(actions) && AllBacked(padded, cases)
    requires PaddedWith(actions, cases, padded, target)
    ensures cases[k].suppressed
    ensures HasLink(padded, failed[k].id) <==> FirstTurn(|actions|, |cases|, k) < target
    ensures |actions| + |cases| <= target ==> HasLink(padded, failed[k].id)
  {
    SuppressedExactly(failed, cases, draws, quota, k);
    assert JourneyFor(failed[k], cases[k], draws(k), PromiseCount(cases[..k]), quota);
    PaddingReachesExactly(actions, cases, padded, target, k);
    FirstTurnIsFirst(|actions|, |cases|, k);
  }
}
